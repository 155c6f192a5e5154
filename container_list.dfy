/** The per-record mapping inside `getContainers`
    (src/helpers/dockerService/serviceComponents/containerList.js): a container as the Docker
    engine lists it becomes the record the dashboard shows. The listing itself is a call into
    the Docker client and is not part of this model; its result is the input here. */
module ContainerList {
  import opened Wrappers
  import opened JsString
  import opened JsArray

  /** An entry of `container.Ports`. An absent port number is `None`. */
  datatype RawPort = RawPort(PublicPort: Option<nat>, PrivatePort: Option<nat>)

  /** A container as listed by the engine; `Names` may be absent. */
  datatype RawContainer = RawContainer(Id: string, Names: Option<seq<string>>, Image: string,
                                       State: string, Status: string, Ports: seq<RawPort>)

  /** The normalised record the user interface works with. */
  datatype Container = Container(id: string, name: string, image: string, state: string,
                                 status: string, ports: seq<string>)

  /** A port number is truthy when present and not zero. */
  predicate TruthyPort(p: Option<nat>) {
    p.Some? && p.value != 0
  }

  /** How a template literal prints an optional port number. */
  function PortText(p: Option<nat>): (r: string)
    ensures r != []
  {
    match p
    case Some(n) => NatToString(n)
    case None => "undefined"
  }

  /** `(Names && Names[0] || 'Unknown').replace("/", "")`. */
  function NormalizeName(names: Option<seq<string>>): (r: string)
    ensures names.Some? && names.value != [] && names.value[0] != [] ==>
              r == RemoveFirst(names.value[0], '/')
    ensures !(names.Some? && names.value != [] && names.value[0] != []) ==> r == "Unknown"
  {
    var first := if names.Some? && names.value != [] && names.value[0] != [] then names.value[0]
                 else "Unknown";
    RemoveFirst(first, '/')
  }

  /** Only the first `/` goes: the engine's leading slash is dropped and every later slash,
      including a second leading one, stays. */
  lemma NameDropsOneLeadingSlash(n: string, rest: seq<string>)
    ensures NormalizeName(Some(["/" + n] + rest)) == n
  {
    assert ("/" + n)[0] == '/';
    assert ("/" + n)[1..] == n;
  }

  /** A name without `/` is kept as it is; an empty or missing name shows as `Unknown`. */
  lemma NameWithoutSlash(n: string, rest: seq<string>)
    requires n != [] && '/' !in n
    ensures NormalizeName(Some([n] + rest)) == n
    ensures NormalizeName(Some([[]] + rest)) == "Unknown"
    ensures NormalizeName(Some([])) == "Unknown" && NormalizeName(None) == "Unknown"
  {
    assert '/' !in "Unknown";
  }

  /** `${PublicPort}:${PrivatePort}`. */
  function PublicText(p: RawPort): string {
    PortText(p.PublicPort) + ":" + PortText(p.PrivatePort)
  }

  /** `:${PrivatePort}`. */
  function PrivateText(p: RawPort): string {
    ":" + PortText(p.PrivatePort)
  }

  predicate HasPublic(p: RawPort) { TruthyPort(p.PublicPort) }

  predicate HasPrivate(p: RawPort) { TruthyPort(p.PrivatePort) }

  /** The `ports` field: the distinct `Public:Private` texts of the ports with a truthy public
      number when there is one, otherwise the distinct `:Private` texts of the ports with a
      truthy private number; each in the order of first occurrence. */
  function Ports(ports: seq<RawPort>): (r: seq<string>)
    ensures NoDuplicates(r)
  {
    var pub := FilterMap(ports, HasPublic, PublicText);
    if |pub| > 0 then Dedup(pub) else Dedup(FilterMap(ports, HasPrivate, PrivateText))
  }

  /** With some truthy public port, `ports` holds a text exactly when it is the
      `Public:Private` text of a port with a truthy public number. */
  lemma PortsWithPublic(ports: seq<RawPort>, j: nat, s: string)
    requires j < |ports| && TruthyPort(ports[j].PublicPort)
    ensures s in Ports(ports) <==>
              exists i :: 0 <= i < |ports| && TruthyPort(ports[i].PublicPort) && s == PublicText(ports[i])
  {
    assert HasPublic(ports[j]);
    assert FilterMap(ports, HasPublic, PublicText) != [];
    DedupFilterMapMembers(ports, HasPublic, PublicText, s);
  }

  /** A port whose public number is zero or absent counts as having none: when no port has a
      truthy public number, `ports` holds a text exactly when it is the `:Private` text of a
      port with a truthy private number. */
  lemma PortsWithoutPublic(ports: seq<RawPort>, s: string)
    requires forall i :: 0 <= i < |ports| ==> ports[i].PublicPort == None || ports[i].PublicPort == Some(0)
    ensures s in Ports(ports) <==>
              exists i :: 0 <= i < |ports| && TruthyPort(ports[i].PrivatePort) && s == PrivateText(ports[i])
  {
    assert forall i :: 0 <= i < |ports| ==> !HasPublic(ports[i]);
    assert FilterMap(ports, HasPublic, PublicText) == [];
    DedupFilterMapMembers(ports, HasPrivate, PrivateText, s);
  }

  /** The texts keep the order of their first occurrence among the filtered ports. */
  lemma PortsOrderOfFirstOccurrence(ports: seq<RawPort>, a: nat, b: nat)
    requires a < b < |Ports(ports)|
    ensures var src := if FilterMap(ports, HasPublic, PublicText) != []
                       then FilterMap(ports, HasPublic, PublicText)
                       else FilterMap(ports, HasPrivate, PrivateText);
            Ports(ports)[a] in src && Ports(ports)[b] in src
            && FirstIndex(src, Ports(ports)[a]) < FirstIndex(src, Ports(ports)[b])
  {
  }

  /** One record of the `containers.map(...)`. */
  function Normalize(raw: RawContainer): (c: Container)
    ensures c.id == raw.Id && c.image == raw.Image && c.state == raw.State && c.status == raw.Status
    ensures c.name == NormalizeName(raw.Names) && c.ports == Ports(raw.Ports)
  {
    Container(raw.Id, NormalizeName(raw.Names), raw.Image, raw.State, raw.Status, Ports(raw.Ports))
  }

  /** The list `getContainers` resolves to: one record per listed container, in the same
      order. */
  function GetContainers(raws: seq<RawContainer>): (r: seq<Container>)
    ensures |r| == |raws|
    ensures forall i :: 0 <= i < |raws| ==> r[i] == Normalize(raws[i])
  {
    seq(|raws|, i requires 0 <= i < |raws| => Normalize(raws[i]))
  }
}
