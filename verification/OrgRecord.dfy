/** The organization record as the console keeps it: `normalizeOrg` and the port list it cleans. */
module OrgRecord {
  import opened Wrappers
  import opened Trimming

  type Id = string

  /** Every field of the record but the revision copied into it. None is a null or missing field; a
      member is its whole record. */
  datatype Org = Org(id: Option<Id>, registered: bool, name: string, rcNumber: string, email: string,
                     phone: string, address: string, ports: seq<string>, designatedPort: Option<string>,
                     primaryPort: Option<string>, logo: Option<string>, members: seq<string>)

  const FALLBACK_PORT := "Port of Calabar"

  /** White space as JavaScript trims it. */
  predicate Space(c: char) {
    c == ' ' || '\t' <= c <= '\r' || '\U{2000}' <= c <= '\U{200A}'
    || c in "\U{00A0}\U{1680}\U{2028}\U{2029}\U{202F}\U{205F}\U{3000}\U{FEFF}"
  }

  function Trim(s: string): string { Stripped(Space, s) }

  /** `uniquePorts` of the first ports, one more at a time. */
  function UniquePorts(ports: seq<string>): seq<string> {
    if ports == [] then []
    else
      var n := |ports| - 1;
      var rest, port := UniquePorts(ports[..n]), Trim(ports[n]);
      if port != "" && port !in rest then rest + [port] else rest
  }

  method CollectPorts(ports: seq<string>) returns (out: seq<string>)
    ensures out == UniquePorts(ports)
    ensures Clean(out) && forall p :: p in out <==> p != "" && Listed(ports, p)
  {
    out := [];
    for i := 0 to |ports|
      invariant out == UniquePorts(ports[..i])
    {
      assert ports[..i + 1][..i] == ports[..i];
      var port := Trim(ports[i]);
      if port != "" && port !in out { out := out + [port]; }
    }
    assert ports[..|ports|] == ports;
    PortsComeClean(ports);
    forall p ensures p in out <==> p != "" && Listed(ports, p) { PortsAreThose(ports, p); }
  }

  /** Each port once, trimmed, none blank. */
  ghost predicate Clean(ports: seq<string>) {
    Distinct(ports) && forall i :: 0 <= i < |ports| ==> ports[i] != "" && Trim(ports[i]) == ports[i]
  }

  /** `p` is one of the ports once trimmed. */
  ghost predicate Listed(ports: seq<string>, p: string) {
    exists i :: 0 <= i < |ports| && Trim(ports[i]) == p
  }

  lemma ListedLast(ports: seq<string>, n: nat, p: string)
    requires |ports| == n + 1
    ensures Listed(ports, p) <==> Listed(ports[..n], p) || Trim(ports[n]) == p
  {
    hide Trim;
    if Listed(ports[..n], p) {
      var i :| 0 <= i < n && Trim(ports[..n][i]) == p;
      assert Trim(ports[i]) == p;
    }
    if i :| 0 <= i < n && Trim(ports[i]) == p {
      assert Trim(ports[..n][i]) == p;
    }
  }

  lemma {:induction false} PortsAreThose(ports: seq<string>, p: string)
    ensures p in UniquePorts(ports) <==> p != "" && Listed(ports, p)
  {
    if ports != [] {
      var n := |ports| - 1;
      PortsAreThose(ports[..n], p);
      ListedLast(ports, n, p);
      hide Trim, Listed;
    }
  }

  lemma {:induction false} PortsComeClean(ports: seq<string>)
    ensures Clean(UniquePorts(ports))
  {
    if ports != [] {
      PortsComeClean(ports[..|ports| - 1]);
      StrippedTwice(Space, ports[|ports| - 1]);
      hide Stripped, Space;
    }
  }

  lemma {:induction false} CleanStays(ports: seq<string>)
    requires Clean(ports)
    ensures UniquePorts(ports) == ports
  {
    if ports != [] {
      var n := |ports| - 1;
      CleanStays(ports[..n]);
      hide Stripped, Space;
      assert Trim(ports[n]) == ports[n];
      assert ports[n] !in ports[..n];
      assert ports == ports[..n] + [ports[n]];
    }
  }

  function OrFallback(port: Option<string>): string {
    if port.None? || port.value == "" then FALLBACK_PORT else port.value
  }

  function PortsOf(org: Org): seq<string> {
    if UniquePorts(org.ports) != [] then UniquePorts(org.ports) else UniquePorts([OrFallback(org.designatedPort)])
  }

  /** `normalizeOrg`. */
  function Normalized(org: Org): Org {
    var ports := PortsOf(org);
    org.(ports := ports,
         designatedPort := if org.designatedPort.Some? && org.designatedPort.value in ports then org.designatedPort
                           else if ports != [] then Some(ports[0]) else None)
  }

  /** The record lists a port that is not blank, or designates one, or designates none and gets the
      fallback port. */
  predicate NamesPort(org: Org) {
    UniquePorts(org.ports) != [] || Trim(OrFallback(org.designatedPort)) != ""
  }

  lemma OnePort(port: string)
    ensures UniquePorts([port]) == if Trim(port) != "" then [Trim(port)] else []
  {
    assert [port][..0] == [];
    assert UniquePorts([port][..0]) == [];
  }

  lemma FallbackIsTrim()
    ensures Trim(FALLBACK_PORT) == FALLBACK_PORT
  {
    assert !Space('P') && !Space('r');
    hide Space;
  }

  lemma PortsAreClean(org: Org)
    ensures Clean(PortsOf(org))
    ensures PortsOf(org) != [] <==> NamesPort(org)
  {
    PortsComeClean(org.ports);
    PortsComeClean([OrFallback(org.designatedPort)]);
    OnePort(OrFallback(org.designatedPort));
    hide UniquePorts, Stripped, Space, Clean;
  }

  /** A normalized record has a designated port among its clean ports, and normalizing it again changes
      nothing; except that a record whose only port is blank is left without one, and gets the fallback
      port the second time. */
  lemma NormalForm(org: Org)
    ensures var once := Normalized(org);
            && Clean(once.ports)
            && (if NamesPort(org)
                then once.designatedPort.Some? && once.designatedPort.value in once.ports && Normalized(once) == once
                else once.ports == [] && once.designatedPort == None
                     && Normalized(once) == once.(ports := [FALLBACK_PORT], designatedPort := Some(FALLBACK_PORT)))
  {
    PortsAreClean(org);
    var once := Normalized(org);
    CleanStays(once.ports);
    OnePort(FALLBACK_PORT);
    FallbackIsTrim();
    hide Stripped, Space;
    assert NamesPort(org) ==> once.ports[0] in once.ports;
  }
}
