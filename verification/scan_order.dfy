/** The lookups of labview/internal/fleet/index.go give their services in the order the fleet was scanned. */
module ScanOrder {
  import opened Text
  import opened Lists
  import opened Grouping
  import opened Fleet
  import opened FleetIndex

  function PortsOf(p: Placed): seq<string> { PublishedPorts(p.svc) }
  function NamesOf(p: Placed): seq<string> { DnsNames(p.svc) }
  function IPsOf(p: Placed): seq<string> { IPs(p.svc) }
  function HostnamesOf(p: Placed): seq<string> { Hostnames(p.svc) }
  function KeyOf(p: Placed): string { p.Key() }

  /** What a scan of the fleet for a folded name meets, service by service. */
  ghost function Answerers(placed: seq<Placed>, names: Placed -> seq<string>, l: string): seq<string> {
    ValuesWhere(placed, (p: Placed) => Mentions(names(p), l), KeyOf)
  }

  ghost predicate InScanOrder(placed: seq<Placed>, found: seq<string>, names: Placed -> seq<string>, l: string) {
    && found == Dedupe(Answerers(placed, names, l))
    && (WellNamed(placed) ==> found == Answerers(placed, names, l))
  }

  lemma FoldKeysMention(names: seq<string>, l: string)
    ensures Mentions(names, l) <==> l != "" && l in FoldKeys(names)
  {
    RecordingHas(names, "", l, "");
    KeyPairsHave(FoldKeys(names), "", "", l, "");
  }

  lemma OnceInOrder(placed: seq<Placed>, names: Placed -> seq<string>, l: string)
    ensures InScanOrder(placed, Dedupe(Answerers(placed, names, l)), names, l)
  {
    if WellNamed(placed) {
      KeysAreDistinct(placed);
      forall i, j | 0 <= i < j < |placed| ensures KeyOf(placed[i]) != KeyOf(placed[j]) {
        assert Keys(placed)[i] != Keys(placed)[j];
      }
      ValuesAreDistinct(placed, (p: Placed) => Mentions(names(p), l), KeyOf);
      DedupeOfDistinct(Answerers(placed, names, l));
    }
  }

  lemma OneLookupInOrder(placed: seq<Placed>, pairs: Placed -> Pairs, names: Placed -> seq<string>, l: string)
    requires forall p :: p in placed ==> pairs(p) == Recording(names(p), p.Key())
    ensures InScanOrder(placed, Get(GroupBy(FlatMap(placed, pairs)), l), names, l)
  {
    var keys := (p: Placed) => FoldKeys(names(p));
    var hit := (p: Placed) => Mentions(names(p), l);
    forall p | p in placed ensures hit(p) <==> l != "" && l in keys(p) { FoldKeysMention(names(p), l); }
    LookupIsInOrder(placed, pairs, keys, "", KeyOf, l, hit);
    OnceInOrder(placed, names, l);
  }

  /** Under the naming rules each lookup is the scan for it, service by service; without them, that scan with repeated
      keys dropped. */
  lemma LookupsAreInScanOrder(placed: seq<Placed>, l: string)
    ensures InScanOrder(placed, ByHostPort(IndexOf(placed), l), PortsOf, Fold(l))
    ensures InScanOrder(placed, ByName(IndexOf(placed), l), NamesOf, Fold(l))
    ensures InScanOrder(placed, ByIP(IndexOf(placed), l), IPsOf, Fold(l))
    ensures InScanOrder(placed, ByHostname(IndexOf(placed), l), HostnamesOf, Fold(l))
  {
    OneLookupInOrder(placed, PortPairs, PortsOf, Fold(l));
    OneLookupInOrder(placed, DnsPairs, NamesOf, Fold(l));
    OneLookupInOrder(placed, IpPairs, IPsOf, Fold(l));
    OneLookupInOrder(placed, HostPairs, HostnamesOf, Fold(l));
  }
}
