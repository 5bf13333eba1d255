/** The fleet-wide network membership index of labview/internal/fleet/networks.go. */
module Networks {
  import opened Options
  import opened Lists
  import opened Grouping
  import opened Fleet

  datatype Network = Network(name: string, members: seq<string>, stacks: seq<string>, external: bool) {
    predicate Connecting() { |members| >= 2 }
    predicate CrossStack() { |stacks| >= 2 }
    predicate SoloLocal() { !external && |members| == 1 }
    predicate Drawn() { !SoloLocal() }
  }

  datatype Index = Index(order: seq<string>, byName: map<string, Network>, byService: map<string, seq<string>>)

  /** One service on one network. */
  datatype Attachment = Attachment(stackId: string, key: string, network: string)

  function AttachmentsOn(p: Placed, networks: seq<string>): seq<Attachment> {
    if networks == [] then [] else
      var last := networks[|networks| - 1];
      AttachmentsOn(p, networks[..|networks| - 1]) + (if last == "" then [] else [Attachment(p.stackId, p.Key(), last)])
  }

  function AttachmentsOf(p: Placed): seq<Attachment> { AttachmentsOn(p, p.svc.networks) }

  /** Every attachment of the fleet, in scan order. */
  function Attachments(placed: seq<Placed>): seq<Attachment> { FlatMap(placed, AttachmentsOf) }

  function Names(ats: seq<Attachment>): (r: seq<string>)
    ensures |r| == |ats| && forall i :: 0 <= i < |r| ==> r[i] == ats[i].network
  { seq(|ats|, i requires 0 <= i < |ats| => ats[i].network) }

  function ByMember(ats: seq<Attachment>): (r: seq<(string, string)>)
    ensures |r| == |ats| && forall i :: 0 <= i < |r| ==> r[i] == (ats[i].network, ats[i].key)
  { seq(|ats|, i requires 0 <= i < |ats| => (ats[i].network, ats[i].key)) }

  function ByStack(ats: seq<Attachment>): (r: seq<(string, string)>)
    ensures |r| == |ats| && forall i :: 0 <= i < |r| ==> r[i] == (ats[i].network, ats[i].stackId)
  { seq(|ats|, i requires 0 <= i < |ats| => (ats[i].network, ats[i].stackId)) }

  function ByService(ats: seq<Attachment>): (r: seq<(string, string)>)
    ensures |r| == |ats| && forall i :: 0 <= i < |r| ==> r[i] == (ats[i].key, ats[i].network)
  { seq(|ats|, i requires 0 <= i < |ats| => (ats[i].key, ats[i].network)) }

  function NetworkOf(ats: seq<Attachment>, external: set<string>, name: string): Network {
    Network(name, Get(GroupBy(ByMember(ats)), name), Get(GroupBy(ByStack(ats)), name), name in external)
  }

  /** What the index holds: the networks in first-seen order, each with its members and stacks, and each service's
      networks. */
  function IndexOf(ats: seq<Attachment>, external: set<string>): Index {
    Index(Dedupe(Names(ats)), NetworkMap(ats, external), GroupBy(ByService(ats)))
  }

  function NetworkMap(ats: seq<Attachment>, external: set<string>): (m: map<string, Network>)
    ensures forall n :: n in m <==> n in Names(ats)
    ensures forall n :: n in m ==> m[n] == NetworkOf(ats, external, n)
  {
    map n | n in Names(ats) :: NetworkOf(ats, external, n)
  }

  function ExternalIn(decls: seq<NetworkDecl>): set<string> {
    set d | d in decls && d.external :: d.name
  }

  function ExternalNames(fleet: seq<Stack>): set<string> {
    set s, d | s in fleet && d in s.networks && d.external :: d.name
  }

  /** One more attachment recorded. */
  function Attached(idx: Index, external: set<string>, a: Attachment): Index {
    var net := if a.network in idx.byName then idx.byName[a.network] else Network(a.network, [], [], a.network in external);
    Index(if a.network in idx.byName then idx.order else idx.order + [a.network],
          idx.byName[a.network := net.(members := AppendOnce(net.members, a.key), stacks := AppendOnce(net.stacks, a.stackId))],
          Record(idx.byService, a.key, a.network))
  }

  lemma NetworkAfter(ats: seq<Attachment>, external: set<string>, a: Attachment, n: string)
    ensures var net := NetworkOf(ats, external, n);
      NetworkOf(ats + [a], external, n) ==
        if n == a.network then net.(members := AppendOnce(net.members, a.key), stacks := AppendOnce(net.stacks, a.stackId)) else net
  {
    assert ByMember(ats + [a]) == ByMember(ats) + [(a.network, a.key)];
    assert ByStack(ats + [a]) == ByStack(ats) + [(a.network, a.stackId)];
    GroupByAppend(ByMember(ats), a.network, a.key);
    GroupByAppend(ByStack(ats), a.network, a.stackId);
  }

  lemma NetworkBefore(ats: seq<Attachment>, external: set<string>, n: string)
    ensures n !in Names(ats) ==> NetworkOf(ats, external, n) == Network(n, [], [], n in external)
  {
    if n !in Names(ats) {
      assert forall i :: 0 <= i < |ats| ==> Names(ats)[i] != n;
      NothingRecorded(ByMember(ats), n);
      NothingRecorded(ByStack(ats), n);
    }
  }

  lemma NamesAfter(ats: seq<Attachment>, a: Attachment)
    ensures Dedupe(Names(ats + [a])) == (if a.network in Names(ats) then Dedupe(Names(ats)) else Dedupe(Names(ats)) + [a.network])
    ensures forall n :: n in Names(ats + [a]) <==> n == a.network || n in Names(ats)
    ensures GroupBy(ByService(ats + [a])) == Record(GroupBy(ByService(ats)), a.key, a.network)
  {
    assert Names(ats + [a]) == Names(ats) + [a.network] && ByService(ats + [a]) == ByService(ats) + [(a.key, a.network)];
    DedupeAppend(Names(ats), a.network);
    DedupeKeeps(Names(ats));
    GroupByAppend(ByService(ats), a.key, a.network);
  }

  ghost function MapBefore(ats: seq<Attachment>, external: set<string>, a: Attachment): map<string, Network> {
    NetworkMap(ats, external)[a.network := NetworkOf(ats + [a], external, a.network)]
  }

  lemma MapAfterAt(ats: seq<Attachment>, external: set<string>, a: Attachment, n: string)
    ensures n in MapBefore(ats, external, a) <==> n in NetworkMap(ats + [a], external)
    ensures n in MapBefore(ats, external, a) ==> MapBefore(ats, external, a)[n] == NetworkMap(ats + [a], external)[n]
  {
    NamesAfter(ats, a);
    NetworkAfter(ats, external, a, n);
  }

  lemma MapAfter(ats: seq<Attachment>, external: set<string>, a: Attachment)
    ensures NetworkMap(ats + [a], external) == MapBefore(ats, external, a)
  {
    var m, m' := MapBefore(ats, external, a), NetworkMap(ats + [a], external);
    forall n ensures (n in m <==> n in m') && (n in m ==> m[n] == m'[n]) {
      MapAfterAt(ats, external, a, n);
    }
    SameMap(m, m');
  }

  lemma SameMap<K(!new), V>(a: map<K, V>, b: map<K, V>)
    requires forall k :: k in a <==> k in b
    requires forall k :: k in a ==> a[k] == b[k]
    ensures a == b
  {
  }

  lemma ByNameAfter(ats: seq<Attachment>, external: set<string>, a: Attachment)
    ensures Attached(IndexOf(ats, external), external, a).byName == NetworkMap(ats + [a], external)
  {
    NetworkBefore(ats, external, a.network);
    NetworkAfter(ats, external, a, a.network);
    MapAfter(ats, external, a);
  }

  lemma AttachedIs(ats: seq<Attachment>, external: set<string>, a: Attachment)
    ensures Attached(IndexOf(ats, external), external, a) == IndexOf(ats + [a], external)
  {
    NamesAfter(ats, a);
    ByNameAfter(ats, external, a);
  }

  /** One stack declaring a network external is enough. */
  method CollectExternal(fleet: seq<Stack>) returns (external: set<string>)
    ensures external == ExternalNames(fleet)
  {
    external := {};
    var s := 0;
    while s < |fleet|
      invariant 0 <= s <= |fleet| && external == ExternalNames(fleet[..s])
    {
      var decls, d := fleet[s].networks, 0;
      while d < |decls|
        invariant 0 <= d <= |decls| && external == ExternalNames(fleet[..s]) + ExternalIn(decls[..d])
      {
        assert decls[..d + 1] == decls[..d] + [decls[d]];
        if decls[d].external {
          external := external + {decls[d].name};
        }
        d := d + 1;
      }
      assert decls[..d] == decls;
      assert fleet[..s + 1] == fleet[..s] + [fleet[s]];
      s := s + 1;
    }
    assert fleet[..s] == fleet;
  }

  method NewNetworks(fleet: seq<Stack>) returns (idx: Index)
    ensures idx == IndexOf(Attachments(Services(fleet)), ExternalNames(fleet))
  {
    var external := CollectExternal(fleet);
    var placed := Services(fleet);
    idx := Index([], map[], map[]);
    var i := 0;
    while i < |placed|
      invariant 0 <= i <= |placed| && idx == IndexOf(Attachments(placed[..i]), external)
    {
      OneMoreAttached(placed, i);
      idx := AttachAll(idx, external, Attachments(placed[..i]), placed[i]);
      i := i + 1;
    }
    TakeAll(placed);
  }

  lemma OneMoreAttached(placed: seq<Placed>, i: nat)
    requires i < |placed|
    ensures Attachments(placed[..i + 1]) == Attachments(placed[..i]) + AttachmentsOf(placed[i])
  {
    TakeMore(placed, i);
    FlatMapAppend(placed[..i], placed[i], AttachmentsOf);
  }

  /** The inner loop: one service's networks, in its compose order. */
  method AttachAll(idx: Index, external: set<string>, ghost ats: seq<Attachment>, p: Placed) returns (out: Index)
    requires idx == IndexOf(ats, external)
    ensures out == IndexOf(ats + AttachmentsOf(p), external)
  {
    var names, j := p.svc.networks, 0;
    out := idx;
    assert ats + [] == ats;
    while j < |names|
      invariant 0 <= j <= |names| && out == IndexOf(ats + AttachmentsOn(p, names[..j]), external)
    {
      var name := names[j];
      AttachmentsStep(ats, p, names, j);
      if name != "" {
        AttachedIs(ats + AttachmentsOn(p, names[..j]), external, Attachment(p.stackId, p.Key(), name));
        out := AttachOne(out, external, p, name);
      }
      j := j + 1;
    }
    assert names[..j] == names;
  }

  lemma AttachmentsStep(ats: seq<Attachment>, p: Placed, names: seq<string>, j: nat)
    requires j < |names|
    ensures ats + AttachmentsOn(p, names[..j + 1]) ==
      if names[j] == "" then ats + AttachmentsOn(p, names[..j])
      else ats + AttachmentsOn(p, names[..j]) + [Attachment(p.stackId, p.Key(), names[j])]
  {
    assert names[..j + 1][..j] == names[..j];
  }

  method AttachOne(idx: Index, external: set<string>, p: Placed, name: string) returns (out: Index)
    ensures out == Attached(idx, external, Attachment(p.stackId, p.Key(), name))
  {
    out := idx;
    if name !in out.byName {
      out := out.(byName := out.byName[name := Network(name, [], [], name in external)], order := out.order + [name]);
    }
    var net := out.byName[name];
    net := net.(members := AppendOnce(net.members, p.Key()), stacks := AppendOnce(net.stacks, p.stackId));
    out := out.(byName := out.byName[name := net], byService := Record(out.byService, p.Key(), name));
  }

  // ---------------------------------------------------------------------------
  // Asking the index
  // ---------------------------------------------------------------------------

  /** The networks one service is on, in its compose order. */
  function Of(idx: Index, key: string): seq<string> { Get(idx.byService, key) }

  function SharedFrom(own: seq<string>, others: seq<string>): seq<string> {
    if own == [] then []
    else SharedFrom(own[..|own| - 1], others) + (if own[|own| - 1] in others then [own[|own| - 1]] else [])
  }

  /** The networks a pair shares, in the first service's compose order. */
  function Shared(idx: Index, a: string, b: string): seq<string> {
    if a == b then [] else SharedFrom(Of(idx, a), Of(idx, b))
  }

  predicate SharesAny(idx: Index, a: string, b: string) { |Shared(idx, a, b)| > 0 }

  method SharedNetworks(idx: Index, a: string, b: string) returns (out: seq<string>)
    ensures out == Shared(idx, a, b)
  {
    if a == b {
      return [];
    }
    out := [];
    var own, i := Of(idx, a), 0;
    while i < |own|
      invariant 0 <= i <= |own| && out == SharedFrom(own[..i], Of(idx, b))
    {
      assert own[..i + 1][..i] == own[..i];
      if own[i] in Of(idx, b) {
        out := out + [own[i]];
      }
      i := i + 1;
    }
    assert own[..i] == own;
  }

  method HasNeighbour(idx: Index, key: string) returns (yes: bool)
    requires forall n :: n in Of(idx, key) ==> n in idx.byName
    ensures yes <==> Neighboured(idx, key)
  {
    var own, i := Of(idx, key), 0;
    while i < |own|
      invariant 0 <= i <= |own| && forall j :: 0 <= j < i ==> |idx.byName[own[j]].members| <= 1
    {
      if |idx.byName[own[i]].members| > 1 {
        assert own[i] in own;
        return true;
      }
      i := i + 1;
    }
    yes := false;
  }

  ghost predicate Neighboured(idx: Index, key: string) {
    exists n :: n in Of(idx, key) && n in idx.byName && |idx.byName[n].members| > 1
  }

  // ---------------------------------------------------------------------------
  // Three readings of one relation
  // ---------------------------------------------------------------------------

  ghost predicate On(ats: seq<Attachment>, key: string, name: string) {
    exists a :: a in ats && a.key == key && a.network == name
  }

  /** The index agrees both ways with the attachments, and nothing in it repeats. */
  lemma IndexAgreesBothWays(ats: seq<Attachment>, external: set<string>, key: string, name: string)
    ensures var idx := IndexOf(ats, external);
      && (name in Of(idx, key) <==> On(ats, key, name))
      && (name in idx.byName && key in idx.byName[name].members <==> On(ats, key, name))
      && (name in idx.byName <==> name in idx.order) && (name in idx.byName ==> idx.byName[name].name == name)
      && Distinct(idx.order) && Distinct(Of(idx, key)) && (name in idx.byName ==> Distinct(idx.byName[name].members))
  {
    LookupHas(ByService(ats), key);
    LookupHas(ByMember(ats), name);
    DedupeKeeps(Names(ats));
    if On(ats, key, name) {
      var a :| a in ats && a.key == key && a.network == name;
      var i :| 0 <= i < |ats| && ats[i] == a;
      assert ByService(ats)[i] == (key, name) && ByMember(ats)[i] == (name, key) && Names(ats)[i] == name;
    }
    if (key, name) in ByService(ats) {
      var i :| 0 <= i < |ats| && ByService(ats)[i] == (key, name);
      assert ats[i] in ats;
    }
    if (name, key) in ByMember(ats) {
      var i :| 0 <= i < |ats| && ByMember(ats)[i] == (name, key);
      assert ats[i] in ats;
    }
  }

  lemma {:induction false} SharedFromHas(own: seq<string>, others: seq<string>, n: string)
    ensures n in SharedFrom(own, others) <==> n in own && n in others
  {
    if own != [] {
      SplitLast(own);
      SharedFromHas(own[..|own| - 1], others, n);
    }
  }

  /** A pair shares a network exactly when the fleet attaches both to it, whichever is asked first. */
  lemma SharedIsBoth(ats: seq<Attachment>, external: set<string>, a: string, b: string, n: string)
    ensures n in Shared(IndexOf(ats, external), a, b) <==> a != b && On(ats, a, n) && On(ats, b, n)
  {
    var idx := IndexOf(ats, external);
    IndexAgreesBothWays(ats, external, a, n);
    IndexAgreesBothWays(ats, external, b, n);
    SharedFromHas(Of(idx, a), Of(idx, b), n);
  }

  lemma SharingIsSymmetric(ats: seq<Attachment>, external: set<string>, a: string, b: string)
    ensures SharesAny(IndexOf(ats, external), a, b) <==> SharesAny(IndexOf(ats, external), b, a)
    ensures SharesAny(IndexOf(ats, external), a, b) <==> a != b && exists n :: On(ats, a, n) && On(ats, b, n)
  {
    var idx := IndexOf(ats, external);
    var x, y := Shared(idx, a, b), Shared(idx, b, a);
    forall n ensures (n in x <==> n in y) && (n in x <==> a != b && On(ats, a, n) && On(ats, b, n)) {
      SharedIsBoth(ats, external, a, b, n);
      SharedIsBoth(ats, external, b, a, n);
    }
    assert |x| > 0 ==> x[0] in x;
    assert |y| > 0 ==> y[0] in y;
  }

  /** A service has a neighbour exactly when some other service is on one of its networks. */
  lemma NeighbourIsAnotherService(ats: seq<Attachment>, external: set<string>, key: string)
    ensures Neighboured(IndexOf(ats, external), key) <==> exists other, n :: other != key && On(ats, key, n) && On(ats, other, n)
  {
    var idx := IndexOf(ats, external);
    if Neighboured(idx, key) {
      var n :| n in Of(idx, key) && n in idx.byName && |idx.byName[n].members| > 1;
      var ms := idx.byName[n].members;
      IndexAgreesBothWays(ats, external, key, n);
      var other := if ms[0] == key then ms[1] else ms[0];
      assert other in ms;
      IndexAgreesBothWays(ats, external, other, n);
      assert On(ats, key, n) && On(ats, other, n);
    }
    if exists other, n :: other != key && On(ats, key, n) && On(ats, other, n) {
      var other, n :| other != key && On(ats, key, n) && On(ats, other, n);
      IndexAgreesBothWays(ats, external, key, n);
      IndexAgreesBothWays(ats, external, other, n);
      var ms := idx.byName[n].members;
      TwoElements(ms, key, other);
    }
  }

  lemma TwoElements<T(!new)>(s: seq<T>, x: T, y: T)
    requires x in s && y in s && x != y
    ensures |s| >= 2
  {
  }

  /** When a key belongs to one stack, a network that joins two stacks joins two services. */
  lemma CrossStackConnects(ats: seq<Attachment>, external: set<string>, name: string)
    requires forall a, b :: a in ats && b in ats && a.key == b.key ==> a.stackId == b.stackId
    requires name in IndexOf(ats, external).byName && IndexOf(ats, external).byName[name].CrossStack()
    ensures IndexOf(ats, external).byName[name].Connecting()
  {
    var net := IndexOf(ats, external).byName[name];
    var i := StackHasMember(ats, name, net.stacks[0]);
    var j := StackHasMember(ats, name, net.stacks[1]);
    LookupHas(ByStack(ats), name);
    TwoElements(net.members, ats[i].key, ats[j].key);
  }

  lemma StackHasMember(ats: seq<Attachment>, name: string, stackId: string) returns (i: nat)
    requires stackId in Get(GroupBy(ByStack(ats)), name)
    ensures i < |ats| && ats[i] in ats && ats[i].stackId == stackId && ats[i].key in Get(GroupBy(ByMember(ats)), name)
  {
    LookupHas(ByStack(ats), name);
    LookupHas(ByMember(ats), name);
    i :| 0 <= i < |ats| && ByStack(ats)[i] == (name, stackId);
    assert ByMember(ats)[i] == (name, ats[i].key);
  }

  /** Under the naming rules every attachment's key belongs to its stack. */
  lemma AttachmentsKeepTheirStack(placed: seq<Placed>)
    requires WellNamed(placed)
    ensures forall a, b :: a in Attachments(placed) && b in Attachments(placed) && a.key == b.key ==> a.stackId == b.stackId
  {
    forall a, b | a in Attachments(placed) && b in Attachments(placed) && a.key == b.key ensures a.stackId == b.stackId {
      FlatMapHas(placed, AttachmentsOf, a);
      FlatMapHas(placed, AttachmentsOf, b);
      var p :| p in placed && a in AttachmentsOf(p);
      var q :| q in placed && b in AttachmentsOf(q);
      AttachmentsAre(p, p.svc.networks, a);
      AttachmentsAre(q, q.svc.networks, b);
      SplitOfKey(p.stackId, p.svc.name);
      SplitOfKey(q.stackId, q.svc.name);
    }
  }

  lemma {:induction false} AttachmentsAre(p: Placed, networks: seq<string>, a: Attachment)
    ensures a in AttachmentsOn(p, networks) <==> a == Attachment(p.stackId, p.Key(), a.network) && a.network in networks && a.network != ""
  {
    if networks != [] {
      SplitLast(networks);
      AttachmentsAre(p, networks[..|networks| - 1], a);
    }
  }
}
