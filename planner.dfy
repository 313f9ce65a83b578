/** The partial-mesh planner: one pass over a snapshot of sites that builds the
    topology report and the deduplicated, ordered list of site-pair links.

    The pass is specified by prefix folds that mirror its four nested loops
    (sites, their tags, every site again, that site's tags); `PlanMesh` runs
    the loops and is proved equal to `Plan`, and the lemmas below prove what
    the plan means. */
module Planner {
  import opened Tags
  import opened TopologyReport

  datatype Option<T> = None | Some(value: T)

  /** A site of the inventory snapshot; `tags` is `None` when the inventory holds no tag list. */
  datatype Site = Site(id: string, name: string, tags: Option<seq<string>>)

  /** One planned link between two sites, tagged with the domain it was found under. */
  datatype Link = Link(domain: string, site1: string, site1Name: string, site2: string, site2Name: string)

  /** The state the pass accumulates: the report, the pair keys already
      scheduled (`meshed_domains`) and the links (`new_anynet_links`). */
  datatype PlanState = PlanState(topology: Topology, keys: seq<string>, links: seq<Link>)

  const Initial: PlanState := PlanState(Empty, [], [])

  /** The report label of a site. */
  function Label(s: Site): string {
    s.name + " (" + s.id + ")"
  }

  predicate CarriesTag(s: Site, tag: string) {
    s.tags.Some? && tag in s.tags.value
  }

  predicate UniqueIds(sites: seq<Site>) {
    forall i, j :: 0 <= i < j < |sites| ==> sites[i].id != sites[j].id
  }

  predicate Distinct(s: seq<string>) {
    forall i, j :: 0 <= i < j < |s| ==> s[i] != s[j]
  }

  // ---------------------------------------------------------------------------
  // The pass, as prefix folds

  /** One iteration over `sub`: if its tags are present, its key with `site` is
      not yet scheduled, it carries `tag` and it is not `site` itself, the key
      and a link are appended. */
  function SubsiteStep(p: PlanState, site: Site, tag: string, domain: string, sub: Site): PlanState {
    var key := PairKey(site.id, sub.id);
    if sub.tags.Some? && key !in p.keys && tag in sub.tags.value && sub.id != site.id
    then PlanState(p.topology, p.keys + [key], p.links + [Link(domain, site.id, site.name, sub.id, sub.name)])
    else p
  }

  function ScanSubsites(p: PlanState, site: Site, tag: string, domain: string, subs: seq<Site>): PlanState
    decreases |subs|
  {
    if subs == [] then p
    else SubsiteStep(ScanSubsites(p, site, tag, domain, subs[..|subs| - 1]), site, tag, domain, subs[|subs| - 1])
  }

  /** One tag of the outer site: a qualifying tag adds the site's label to its
      domain and then scans every site of the inventory. */
  function TagStep(p: PlanState, site: Site, tag: string, all: seq<Site>): PlanState {
    if Qualifies(tag) then
      var domain := Domain(tag);
      ScanSubsites(p.(topology := AddMember(p.topology, domain, Label(site))), site, tag, domain, all)
    else p
  }

  function ScanTags(p: PlanState, site: Site, tags: seq<string>, all: seq<Site>): PlanState
    decreases |tags|
  {
    if tags == [] then p
    else TagStep(ScanTags(p, site, tags[..|tags| - 1], all), site, tags[|tags| - 1], all)
  }

  function SiteStep(p: PlanState, site: Site, all: seq<Site>): PlanState {
    match site.tags
    case None => p
    case Some(tags) => ScanTags(p, site, tags, all)
  }

  function ScanSites(p: PlanState, sites: seq<Site>, all: seq<Site>): PlanState
    decreases |sites|
  {
    if sites == [] then p
    else SiteStep(ScanSites(p, sites[..|sites| - 1], all), sites[|sites| - 1], all)
  }

  /** The result of the whole pass over `sites`. */
  function Plan(sites: seq<Site>): PlanState {
    ScanSites(Initial, sites, sites)
  }

  // ---------------------------------------------------------------------------
  // Reference definitions

  /** The qualifying tag occurrences of one site, in tag order. */
  function TagOccurrences(site: Site, tags: seq<string>): seq<Occurrence>
    decreases |tags|
  {
    if tags == [] then []
    else
      var t := tags[|tags| - 1];
      TagOccurrences(site, tags[..|tags| - 1]) + (if Qualifies(t) then [Occurrence(Domain(t), Label(site))] else [])
  }

  function SiteOccurrences(site: Site): seq<Occurrence> {
    match site.tags
    case None => []
    case Some(tags) => TagOccurrences(site, tags)
  }

  /** Every qualifying tag occurrence of the inventory, in scan order. */
  function Occurrences(sites: seq<Site>): seq<Occurrence>
    decreases |sites|
  {
    if sites == [] then []
    else Occurrences(sites[..|sites| - 1]) + SiteOccurrences(sites[|sites| - 1])
  }

  /** Entry i of the keys is the key of link i. */
  ghost predicate KeysTrackLinks(p: PlanState) {
    |p.keys| == |p.links| &&
    forall i :: 0 <= i < |p.links| ==> p.keys[i] == PairKey(p.links[i].site1, p.links[i].site2)
  }

  /** `l` joins two distinct sites `s1` and `s2` that both carry the same
      qualifying tag, under the domain that tag names. */
  ghost predicate LinkFrom(l: Link, s1: Site, s2: Site, tag: string) {
    && l.site1 == s1.id && l.site1Name == s1.name
    && l.site2 == s2.id && l.site2Name == s2.name
    && s1.id != s2.id
    && Qualifies(tag) && CarriesTag(s1, tag) && CarriesTag(s2, tag)
    && l.domain == Domain(tag)
  }

  ghost predicate SoundLink(l: Link, all: seq<Site>) {
    exists s1, s2, tag :: s1 in all && s2 in all && LinkFrom(l, s1, s2, tag)
  }

  /** What the pass keeps true at every step. */
  ghost predicate Inv(p: PlanState, all: seq<Site>) {
    && KeysTrackLinks(p)
    && Distinct(p.keys)
    && (forall i :: 0 <= i < |p.links| ==> SoundLink(p.links[i], all))
  }

  /** Every site of `all` that carries `tag` and is not `site` has its key with `site` in `keys`. */
  ghost predicate Covered(keys: seq<string>, site: Site, tag: string, all: seq<Site>) {
    forall k :: 0 <= k < |all| && CarriesTag(all[k], tag) && all[k].id != site.id ==>
      PairKey(site.id, all[k].id) in keys
  }

  /** Every two distinct sites sharing a qualifying tag have their key in `keys`. */
  ghost predicate CoversSharedTags(keys: seq<string>, sites: seq<Site>) {
    forall i, j, tag ::
      (0 <= i < |sites| && 0 <= j < |sites| && sites[i].id != sites[j].id &&
       Qualifies(tag) && CarriesTag(sites[i], tag) && CarriesTag(sites[j], tag)) ==>
      PairKey(sites[i].id, sites[j].id) in keys
  }

  /** Every qualifying tag of every site of `sites` is covered in `keys`. */
  ghost predicate SitesCovered(keys: seq<string>, sites: seq<Site>, all: seq<Site>) {
    forall i, tag :: 0 <= i < |sites| && Qualifies(tag) && CarriesTag(sites[i], tag) ==>
      Covered(keys, sites[i], tag, all)
  }

  // ---------------------------------------------------------------------------
  // The pass keeps its invariant and covers every shared tag

  lemma CoveredGrows(k1: seq<string>, k2: seq<string>, site: Site, tag: string, all: seq<Site>)
    requires k1 <= k2
    requires Covered(k1, site, tag, all)
    ensures Covered(k2, site, tag, all)
  {
    forall k | 0 <= k < |all| && CarriesTag(all[k], tag) && all[k].id != site.id
      ensures PairKey(site.id, all[k].id) in k2
    {
      var i :| 0 <= i < |k1| && k1[i] == PairKey(site.id, all[k].id);
      assert k2[i] == k1[i];
    }
  }

  lemma SubsiteStepSpec(p: PlanState, site: Site, tag: string, domain: string, sub: Site, all: seq<Site>)
    requires Inv(p, all) && site in all && sub in all
    requires Qualifies(tag) && CarriesTag(site, tag) && domain == Domain(tag)
    ensures Inv(SubsiteStep(p, site, tag, domain, sub), all)
    ensures p.keys <= SubsiteStep(p, site, tag, domain, sub).keys
    ensures CarriesTag(sub, tag) && sub.id != site.id ==>
              PairKey(site.id, sub.id) in SubsiteStep(p, site, tag, domain, sub).keys
  {
    var q := SubsiteStep(p, site, tag, domain, sub);
    if q != p {
      var l := Link(domain, site.id, site.name, sub.id, sub.name);
      assert LinkFrom(l, site, sub, tag);
      assert q.links == p.links + [l];
      forall i | 0 <= i < |q.links| ensures SoundLink(q.links[i], all) {
        if i < |p.links| {
          assert q.links[i] == p.links[i];
        }
      }
    }
  }

  lemma {:induction false} ScanSubsitesSpec(p: PlanState, site: Site, tag: string, domain: string,
                                            subs: seq<Site>, all: seq<Site>)
    requires Inv(p, all) && site in all
    requires forall k :: 0 <= k < |subs| ==> subs[k] in all
    requires Qualifies(tag) && CarriesTag(site, tag) && domain == Domain(tag)
    ensures Inv(ScanSubsites(p, site, tag, domain, subs), all)
    ensures p.keys <= ScanSubsites(p, site, tag, domain, subs).keys
    ensures forall k :: 0 <= k < |subs| && CarriesTag(subs[k], tag) && subs[k].id != site.id ==>
              PairKey(site.id, subs[k].id) in ScanSubsites(p, site, tag, domain, subs).keys
    decreases |subs|
  {
    if subs != [] {
      var init := subs[..|subs| - 1];
      var sub := subs[|subs| - 1];
      ScanSubsitesSpec(p, site, tag, domain, init, all);
      var mid := ScanSubsites(p, site, tag, domain, init);
      SubsiteStepSpec(mid, site, tag, domain, sub, all);
      var q := SubsiteStep(mid, site, tag, domain, sub);
      forall k | 0 <= k < |subs| && CarriesTag(subs[k], tag) && subs[k].id != site.id
        ensures PairKey(site.id, subs[k].id) in q.keys
      {
        if k < |init| {
          assert subs[k] == init[k];
          var i :| 0 <= i < |mid.keys| && mid.keys[i] == PairKey(site.id, subs[k].id);
          assert q.keys[i] == mid.keys[i];
        }
      }
    }
  }

  lemma TagStepSpec(p: PlanState, site: Site, tag: string, all: seq<Site>)
    requires Inv(p, all) && site in all && CarriesTag(site, tag)
    ensures Inv(TagStep(p, site, tag, all), all)
    ensures p.keys <= TagStep(p, site, tag, all).keys
    ensures Qualifies(tag) ==> Covered(TagStep(p, site, tag, all).keys, site, tag, all)
  {
    if Qualifies(tag) {
      var p' := p.(topology := AddMember(p.topology, Domain(tag), Label(site)));
      ScanSubsitesSpec(p', site, tag, Domain(tag), all, all);
    }
  }

  lemma {:induction false} ScanTagsSpec(p: PlanState, site: Site, tags: seq<string>, all: seq<Site>)
    requires Inv(p, all) && site in all
    requires forall j :: 0 <= j < |tags| ==> CarriesTag(site, tags[j])
    ensures Inv(ScanTags(p, site, tags, all), all)
    ensures p.keys <= ScanTags(p, site, tags, all).keys
    ensures forall j :: 0 <= j < |tags| && Qualifies(tags[j]) ==>
              Covered(ScanTags(p, site, tags, all).keys, site, tags[j], all)
    decreases |tags|
  {
    if tags != [] {
      var init := tags[..|tags| - 1];
      var t := tags[|tags| - 1];
      ScanTagsSpec(p, site, init, all);
      var mid := ScanTags(p, site, init, all);
      TagStepSpec(mid, site, t, all);
      var q := TagStep(mid, site, t, all);
      forall j | 0 <= j < |tags| && Qualifies(tags[j]) ensures Covered(q.keys, site, tags[j], all) {
        if j < |init| {
          assert tags[j] == init[j];
          CoveredGrows(mid.keys, q.keys, site, tags[j], all);
        }
      }
    }
  }

  lemma SiteStepSpec(p: PlanState, site: Site, all: seq<Site>)
    requires Inv(p, all) && site in all
    ensures Inv(SiteStep(p, site, all), all)
    ensures p.keys <= SiteStep(p, site, all).keys
    ensures forall tag :: Qualifies(tag) && CarriesTag(site, tag) ==>
              Covered(SiteStep(p, site, all).keys, site, tag, all)
  {
    if site.tags.Some? {
      var tags := site.tags.value;
      ScanTagsSpec(p, site, tags, all);
      forall tag | Qualifies(tag) && CarriesTag(site, tag)
        ensures Covered(SiteStep(p, site, all).keys, site, tag, all)
      {
        var j :| 0 <= j < |tags| && tags[j] == tag;
      }
    }
  }

  lemma {:induction false} ScanSitesSpec(p: PlanState, sites: seq<Site>, all: seq<Site>)
    requires Inv(p, all)
    requires forall i :: 0 <= i < |sites| ==> sites[i] in all
    ensures Inv(ScanSites(p, sites, all), all)
    ensures p.keys <= ScanSites(p, sites, all).keys
    ensures SitesCovered(ScanSites(p, sites, all).keys, sites, all)
    decreases |sites|
  {
    if sites != [] {
      var init := sites[..|sites| - 1];
      var s := sites[|sites| - 1];
      assert forall i :: 0 <= i < |init| ==> init[i] == sites[i];
      ScanSitesSpec(p, init, all);
      var mid := ScanSites(p, init, all);
      SiteStepSpec(mid, s, all);
      var q := SiteStep(mid, s, all);
      SitesCoveredExtend(mid.keys, q.keys, init, s, all);
      assert init + [s] == sites;
    }
  }

  lemma SitesCoveredExtend(k1: seq<string>, k2: seq<string>, init: seq<Site>, s: Site, all: seq<Site>)
    requires k1 <= k2
    requires SitesCovered(k1, init, all)
    requires forall tag :: Qualifies(tag) && CarriesTag(s, tag) ==> Covered(k2, s, tag, all)
    ensures SitesCovered(k2, init + [s], all)
  {
    var sites := init + [s];
    forall i, tag | 0 <= i < |sites| && Qualifies(tag) && CarriesTag(sites[i], tag)
      ensures Covered(k2, sites[i], tag, all)
    {
      if i < |init| {
        assert sites[i] == init[i];
        CoveredGrows(k1, k2, sites[i], tag, all);
      }
    }
  }

  lemma SitesCoveredGrows(k1: seq<string>, k2: seq<string>, sites: seq<Site>, all: seq<Site>)
    requires k1 <= k2
    requires SitesCovered(k1, sites, all)
    ensures SitesCovered(k2, sites, all)
  {
    forall i, tag | 0 <= i < |sites| && Qualifies(tag) && CarriesTag(sites[i], tag)
      ensures Covered(k2, sites[i], tag, all)
    {
      CoveredGrows(k1, k2, sites[i], tag, all);
    }
  }

  // ---------------------------------------------------------------------------
  // Links point forward: site1 is the outer-loop site, site2 a later site

  /** `l` runs from `s1` to `s2`, ids and names. */
  predicate Endpoints(l: Link, s1: Site, s2: Site) {
    l.site1 == s1.id && l.site1Name == s1.name && l.site2 == s2.id && l.site2Name == s2.name
  }

  /** Every link of `links` from index `from` on runs from `all[a]` to a site after it. */
  ghost predicate ForwardFrom(links: seq<Link>, from: int, a: int, all: seq<Site>) {
    0 <= a < |all| &&
    forall k :: from <= k < |links| && 0 <= k ==> exists b :: a < b < |all| && Endpoints(links[k], all[a], all[b])
  }

  /** A site before `all[a]` that carries the same qualifying tag scheduled its
      key with `all[a]` when it was the outer site. */
  lemma EarlierSiteScheduled(keys: seq<string>, a: int, j: int, tag: string, all: seq<Site>)
    requires 0 <= j < a < |all|
    requires SitesCovered(keys, all[..a], all)
    requires Qualifies(tag) && CarriesTag(all[a], tag) && CarriesTag(all[j], tag) && all[j].id != all[a].id
    ensures PairKey(all[a].id, all[j].id) in keys
  {
    assert all[..a][j] == all[j];
    assert Covered(keys, all[j], tag, all);
    PairKeySymmetric(all[j].id, all[a].id);
  }

  /** Scanning the inventory for outer site `all[a]`: every link added runs from
      `all[a]` to a site after it. */
  lemma {:induction false} ScanSubsitesForward(p: PlanState, a: int, tag: string, domain: string, m: int,
                                               all: seq<Site>)
    requires 0 <= a < |all| && 0 <= m <= |all|
    requires Qualifies(tag) && CarriesTag(all[a], tag)
    requires SitesCovered(p.keys, all[..a], all)
    ensures p.keys <= ScanSubsites(p, all[a], tag, domain, all[..m]).keys
    ensures p.links <= ScanSubsites(p, all[a], tag, domain, all[..m]).links
    ensures ForwardFrom(ScanSubsites(p, all[a], tag, domain, all[..m]).links, |p.links|, a, all)
    decreases m
  {
    if m == 0 {
      assert all[..m] == [];
      assert ScanSubsites(p, all[a], tag, domain, all[..m]) == p;
    } else {
      var site := all[a];
      ScanSubsitesForward(p, a, tag, domain, m - 1, all);
      var mid := ScanSubsites(p, site, tag, domain, all[..m - 1]);
      var sub := all[m - 1];
      assert all[..m][..m - 1] == all[..m - 1];
      assert all[..m][m - 1] == sub;
      var q := SubsiteStep(mid, site, tag, domain, sub);
      assert ScanSubsites(p, site, tag, domain, all[..m]) == q;
      if m - 1 < a {
        if CarriesTag(sub, tag) && sub.id != site.id {
          EarlierSiteScheduled(p.keys, a, m - 1, tag, all);
          var i :| 0 <= i < |p.keys| && p.keys[i] == PairKey(site.id, sub.id);
          assert mid.keys[i] == p.keys[i];
        }
        assert q == mid;
      } else if m - 1 == a {
        assert q == mid;
      } else if q != mid {
        assert q.links == mid.links + [Link(domain, site.id, site.name, sub.id, sub.name)];
        forall k | |p.links| <= k < |q.links|
          ensures exists b :: a < b < |all| && Endpoints(q.links[k], all[a], all[b])
        {
          if k < |mid.links| {
            assert q.links[k] == mid.links[k];
          } else {
            assert Endpoints(q.links[k], all[a], all[m - 1]);
          }
        }
      }
      assert ForwardFrom(q.links, |p.links|, a, all);
    }
  }

  lemma TagStepForward(p: PlanState, a: int, tag: string, all: seq<Site>)
    requires 0 <= a < |all| && CarriesTag(all[a], tag)
    requires SitesCovered(p.keys, all[..a], all)
    ensures p.keys <= TagStep(p, all[a], tag, all).keys
    ensures p.links <= TagStep(p, all[a], tag, all).links
    ensures ForwardFrom(TagStep(p, all[a], tag, all).links, |p.links|, a, all)
  {
    if Qualifies(tag) {
      var p' := p.(topology := AddMember(p.topology, Domain(tag), Label(all[a])));
      ScanSubsitesForward(p', a, tag, Domain(tag), |all|, all);
      assert all[..|all|] == all;
    }
  }

  lemma {:induction false} ScanTagsForward(p: PlanState, a: int, tags: seq<string>, all: seq<Site>)
    requires 0 <= a < |all|
    requires forall j :: 0 <= j < |tags| ==> CarriesTag(all[a], tags[j])
    requires SitesCovered(p.keys, all[..a], all)
    ensures p.keys <= ScanTags(p, all[a], tags, all).keys
    ensures p.links <= ScanTags(p, all[a], tags, all).links
    ensures ForwardFrom(ScanTags(p, all[a], tags, all).links, |p.links|, a, all)
    decreases |tags|
  {
    if tags == [] {
      assert ScanTags(p, all[a], tags, all) == p;
    } else {
      var init := tags[..|tags| - 1];
      ScanTagsForward(p, a, init, all);
      var mid := ScanTags(p, all[a], init, all);
      SitesCoveredGrows(p.keys, mid.keys, all[..a], all);
      TagStepForward(mid, a, tags[|tags| - 1], all);
      var q := TagStep(mid, all[a], tags[|tags| - 1], all);
      assert ScanTags(p, all[a], tags, all) == q;
      forall k | |p.links| <= k < |q.links|
        ensures exists b :: a < b < |all| && Endpoints(q.links[k], all[a], all[b])
      {
        if k < |mid.links| {
          assert q.links[k] == mid.links[k];
        }
      }
      assert ForwardFrom(q.links, |p.links|, a, all);
    }
  }

  /** Every link of `links` runs from a site of `all` to a later one. */
  ghost predicate Forward(links: seq<Link>, all: seq<Site>) {
    forall k :: 0 <= k < |links| ==> exists a, b :: 0 <= a < b < |all| && Endpoints(links[k], all[a], all[b])
  }

  lemma {:induction false} ScanSitesForward(n: int, all: seq<Site>)
    requires 0 <= n <= |all|
    ensures Forward(ScanSites(Initial, all[..n], all).links, all)
    decreases n
  {
    if n == 0 {
      assert all[..n] == [];
      assert ScanSites(Initial, all[..n], all) == Initial;
    } else {
      ScanSitesForward(n - 1, all);
      var init := all[..n - 1];
      assert all[..n][..n - 1] == init;
      assert all[..n][n - 1] == all[n - 1];
      assert forall i :: 0 <= i < |init| ==> init[i] in all;
      ScanSitesSpec(Initial, init, all);
      var mid := ScanSites(Initial, init, all);
      var q := SiteStep(mid, all[n - 1], all);
      assert ScanSites(Initial, all[..n], all) == q;
      if all[n - 1].tags.Some? {
        ScanTagsForward(mid, n - 1, all[n - 1].tags.value, all);
      }
      forall k | 0 <= k < |q.links|
        ensures exists a, b :: 0 <= a < b < |all| && Endpoints(q.links[k], all[a], all[b])
      {
        if k < |mid.links| {
          assert q.links[k] == mid.links[k];
        } else {
          var b :| n - 1 < b < |all| && Endpoints(q.links[k], all[n - 1], all[b]);
        }
      }
      assert Forward(q.links, all);
    }
  }

  /** Every planned link runs from a site to a later site of the inventory:
      `site1` is the outer-loop site it was planned from, `site2` the site
      found after it, with their names. */
  lemma LinksGoForward(sites: seq<Site>)
    ensures forall k :: 0 <= k < |Plan(sites).links| ==>
              exists a, b :: 0 <= a < b < |sites| && Endpoints(Plan(sites).links[k], sites[a], sites[b])
  {
    ScanSitesForward(|sites|, sites);
    assert sites[..|sites|] == sites;
    assert Plan(sites) == ScanSites(Initial, sites[..|sites|], sites);
    assert Forward(Plan(sites).links, sites);
  }

  // ---------------------------------------------------------------------------
  // The report is the occurrences grouped by domain

  lemma {:induction false} ScanSubsitesKeepsTopology(p: PlanState, site: Site, tag: string, domain: string,
                                                     subs: seq<Site>)
    ensures ScanSubsites(p, site, tag, domain, subs).topology == p.topology
    decreases |subs|
  {
    if subs != [] {
      ScanSubsitesKeepsTopology(p, site, tag, domain, subs[..|subs| - 1]);
    }
  }

  lemma {:induction false} ScanTagsTopology(p: PlanState, site: Site, tags: seq<string>, all: seq<Site>)
    ensures ScanTags(p, site, tags, all).topology == AddAll(p.topology, TagOccurrences(site, tags))
    decreases |tags|
  {
    if tags != [] {
      var init := tags[..|tags| - 1];
      var t := tags[|tags| - 1];
      ScanTagsTopology(p, site, init, all);
      var mid := ScanTags(p, site, init, all);
      var occs := TagOccurrences(site, init);
      if Qualifies(t) {
        var o := Occurrence(Domain(t), Label(site));
        ScanSubsitesKeepsTopology(mid.(topology := AddMember(mid.topology, o.domain, o.siteLabel)),
                                  site, t, o.domain, all);
        assert (occs + [o])[..|occs + [o]| - 1] == occs;
      } else {
        assert occs + [] == occs;
      }
    }
  }

  lemma {:induction false} ScanSitesTopology(p: PlanState, sites: seq<Site>, all: seq<Site>)
    ensures ScanSites(p, sites, all).topology == AddAll(p.topology, Occurrences(sites))
    decreases |sites|
  {
    if sites != [] {
      var init := sites[..|sites| - 1];
      var s := sites[|sites| - 1];
      ScanSitesTopology(p, init, all);
      var mid := ScanSites(p, init, all);
      if s.tags.Some? {
        ScanTagsTopology(mid, s, s.tags.value, all);
      }
      AddAllConcat(p.topology, Occurrences(init), SiteOccurrences(s));
    }
  }

  /** The plan of an inventory: the report groups its qualifying tag
      occurrences by domain; entry i of the keys is the key of link i and no
      key repeats; every link joins two distinct sites sharing a qualifying
      tag, under that tag's domain; and every two distinct sites sharing a
      qualifying tag have their key scheduled. */
  lemma PlanSpec(sites: seq<Site>)
    ensures Plan(sites).topology == AddAll(Empty, Occurrences(sites))
    ensures Valid(Plan(sites).topology)
    ensures KeysTrackLinks(Plan(sites))
    ensures Distinct(Plan(sites).keys)
    ensures forall i :: 0 <= i < |Plan(sites).links| ==> SoundLink(Plan(sites).links[i], sites)
    ensures CoversSharedTags(Plan(sites).keys, sites)
  {
    ScanSitesSpec(Initial, sites, sites);
    ScanSitesTopology(Initial, sites, sites);
    GroupByDomain(Occurrences(sites));
    var p := Plan(sites);
    assert SitesCovered(p.keys, sites, sites);
    forall i, j, tag | 0 <= i < |sites| && 0 <= j < |sites| && sites[i].id != sites[j].id &&
                       Qualifies(tag) && CarriesTag(sites[i], tag) && CarriesTag(sites[j], tag)
      ensures PairKey(sites[i].id, sites[j].id) in p.keys
    {
      assert Covered(p.keys, sites[i], tag, sites);
    }
  }

  /** The report of the plan: a domain is a key iff some qualifying tag
      occurrence names it, its members are the labels of those occurrences in
      scan order with duplicates kept, and no member list is empty, so the
      "No site members found" branch of the report is never taken. */
  lemma PlanTopology(sites: seq<Site>)
    ensures Valid(Plan(sites).topology)
    ensures forall d :: d in Plan(sites).topology.members <==>
                        exists i :: 0 <= i < |Occurrences(sites)| && Occurrences(sites)[i].domain == d
    ensures forall d :: Members(Plan(sites).topology, d) == LabelsOf(Occurrences(sites), d)
    ensures forall d :: d in Plan(sites).topology.members ==> Plan(sites).topology.members[d] != []
    ensures Plan(sites).topology.order == AppendNew([], DomainsOf(Occurrences(sites)))
  {
    ScanSitesTopology(Initial, sites, sites);
    GroupByDomain(Occurrences(sites));
  }

  /** No unordered pair of sites is planned twice, not even under two domains. */
  lemma AtMostOncePerPair(sites: seq<Site>)
    ensures forall i, j :: 0 <= i < j < |Plan(sites).links| ==>
              var a, b := Plan(sites).links[i], Plan(sites).links[j];
              !(a.site1 == b.site1 && a.site2 == b.site2) && !(a.site1 == b.site2 && a.site2 == b.site1)
  {
    PlanSpec(sites);
    var p := Plan(sites);
    forall i, j | 0 <= i < j < |p.links|
      ensures !(p.links[i].site1 == p.links[j].site2 && p.links[i].site2 == p.links[j].site1)
    {
      PairKeySymmetric(p.links[i].site1, p.links[i].site2);
    }
  }

  /** When all site ids have the same length, pair keys cannot collide, and
      every two distinct sites sharing a qualifying tag are joined by a link. */
  lemma SharedTagLinkedWhenIdsAlign(sites: seq<Site>, i: int, j: int, tag: string)
    requires forall k :: 0 <= k < |sites| ==> |sites[k].id| == |sites[0].id|
    requires 0 <= i < |sites| && 0 <= j < |sites| && sites[i].id != sites[j].id
    requires Qualifies(tag) && CarriesTag(sites[i], tag) && CarriesTag(sites[j], tag)
    ensures exists k :: 0 <= k < |Plan(sites).links| &&
              ((Plan(sites).links[k].site1 == sites[i].id && Plan(sites).links[k].site2 == sites[j].id) ||
               (Plan(sites).links[k].site1 == sites[j].id && Plan(sites).links[k].site2 == sites[i].id))
  {
    PlanSpec(sites);
    var p := Plan(sites);
    var k :| 0 <= k < |p.keys| && p.keys[k] == PairKey(sites[i].id, sites[j].id);
    var l := p.links[k];
    assert SoundLink(l, sites);
    var s1, s2, t :| s1 in sites && s2 in sites && LinkFrom(l, s1, s2, t);
    PairKeyInjectiveOnEqualLengths(l.site1, l.site2, sites[i].id, sites[j].id);
  }

  /** A site that carries no tag, through a `None` or an empty tag list, is
      in no link and adds no member to the report. */
  lemma UntaggedSiteNeverLinked(sites: seq<Site>, s: Site)
    requires UniqueIds(sites)
    requires s in sites && (s.tags.None? || s.tags.value == [])
    ensures SiteOccurrences(s) == []
    ensures forall k :: 0 <= k < |Plan(sites).links| ==>
              Plan(sites).links[k].site1 != s.id && Plan(sites).links[k].site2 != s.id
  {
    PlanSpec(sites);
    var p := Plan(sites);
    forall k | 0 <= k < |p.links| ensures p.links[k].site1 != s.id && p.links[k].site2 != s.id {
      assert SoundLink(p.links[k], sites);
      var s1, s2, t :| s1 in sites && s2 in sites && LinkFrom(p.links[k], s1, s2, t);
      SameIdSameSite(sites, s1, s);
      SameIdSameSite(sites, s2, s);
    }
  }

  lemma SameIdSameSite(sites: seq<Site>, a: Site, b: Site)
    requires UniqueIds(sites) && a in sites && b in sites
    ensures a.id == b.id ==> a == b
  {
    var i :| 0 <= i < |sites| && sites[i] == a;
    var j :| 0 <= j < |sites| && sites[j] == b;
    assert a.id == b.id ==> sites[i].id == sites[j].id;
  }

  // ---------------------------------------------------------------------------
  // The loops

  /** The loop over the other site's tags: `tag_match` becomes true iff one of
      them equals `tag` and the other site is not the outer site. */
  method MatchesTag(subTags: seq<string>, tag: string, subId: string, siteId: string) returns (tagMatch: bool)
    ensures tagMatch <==> tag in subTags && subId != siteId
  {
    tagMatch := false;
    var k := 0;
    while k < |subTags|
      invariant 0 <= k <= |subTags|
      invariant tagMatch <==> tag in subTags[..k] && subId != siteId
    {
      if subTags[k] == tag {
        if subId != siteId {
          tagMatch := true;
        }
      }
      assert subTags[..k + 1] == subTags[..k] + [subTags[k]];
      k := k + 1;
    }
    assert subTags[..k] == subTags;
  }

  /** The planning pass. Self-pairs are excluded by id inequality, which is the
      object-identity test of the pass when site ids are unique. */
  method PlanMesh(sites: seq<Site>) returns (plan: PlanState)
    requires UniqueIds(sites)
    ensures plan == Plan(sites)
    ensures Valid(plan.topology)
    ensures forall d :: Members(plan.topology, d) == LabelsOf(Occurrences(sites), d)
    ensures KeysTrackLinks(plan) && Distinct(plan.keys)
    ensures forall i :: 0 <= i < |plan.links| ==> SoundLink(plan.links[i], sites)
    ensures CoversSharedTags(plan.keys, sites)
  {
    var topology := Empty;
    var keys: seq<string> := [];
    var links: seq<Link> := [];
    var i := 0;
    while i < |sites|
      invariant 0 <= i <= |sites|
      invariant PlanState(topology, keys, links) == ScanSites(Initial, sites[..i], sites)
    {
      var site := sites[i];
      ghost var before := PlanState(topology, keys, links);
      if site.tags.Some? {
        var tags := site.tags.value;
        var j := 0;
        while j < |tags|
          invariant 0 <= j <= |tags|
          invariant PlanState(topology, keys, links) == ScanTags(before, site, tags[..j], sites)
        {
          var tag := tags[j];
          var domain := Domain(tag);
          ghost var beforeTag := PlanState(topology, keys, links);
          if Qualifies(tag) {
            topology := AddMember(topology, domain, Label(site));
            ghost var start := PlanState(topology, keys, links);
            var k := 0;
            while k < |sites|
              invariant 0 <= k <= |sites|
              invariant PlanState(topology, keys, links) == ScanSubsites(start, site, tag, domain, sites[..k])
            {
              var sub := sites[k];
              var key := PairKey(site.id, sub.id);
              var tagMatch := false;
              if sub.tags.Some? && key !in keys {
                tagMatch := MatchesTag(sub.tags.value, tag, sub.id, site.id);
              }
              if tagMatch {
                keys := keys + [key];
                links := links + [Link(domain, site.id, site.name, sub.id, sub.name)];
              }
              assert sites[..k + 1][..k] == sites[..k];
              k := k + 1;
            }
            assert sites[..k] == sites;
          }
          assert PlanState(topology, keys, links) == TagStep(beforeTag, site, tag, sites);
          assert tags[..j + 1][..j] == tags[..j];
          j := j + 1;
        }
        assert tags[..j] == tags;
      }
      assert PlanState(topology, keys, links) == SiteStep(before, site, sites);
      assert sites[..i + 1][..i] == sites[..i];
      i := i + 1;
    }
    assert sites[..i] == sites;
    plan := PlanState(topology, keys, links);
    PlanSpec(sites);
    PlanTopology(sites);
  }
}
