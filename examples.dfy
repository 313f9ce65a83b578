/** Worked examples of the planner on small inventories. */
module PlannerExamples {
  import opened Tags
  import opened TopologyReport
  import opened Planner

  const Corp: string := "AUTO-MESH_corp"
  const Lab: string := "AUTO-MESH_lab"

  lemma CorpAndLabQualify()
    ensures Qualifies(Corp) && Domain(Corp) == "corp"
    ensures Qualifies(Lab) && Domain(Lab) == "lab"
    ensures Corp != Lab
  {
    assert Corp[..10] == Prefix && Corp[10..] == "corp";
    assert Lab[..10] == Prefix && Lab[10..] == "lab";
    assert Corp[10] != Lab[10];
  }

  lemma ScanSitesThree(p: PlanState, a: Site, b: Site, c: Site, all: seq<Site>)
    ensures ScanSites(p, [a, b, c], all) == SiteStep(SiteStep(SiteStep(p, a, all), b, all), c, all)
  {
    assert [a, b, c][..2] == [a, b];
    assert [a, b][..1] == [a];
    assert [a][..0] == [];
    assert ScanSites(p, [a], all) == SiteStep(ScanSites(p, [], all), a, all);
    assert ScanSites(p, [a, b], all) == SiteStep(ScanSites(p, [a], all), b, all);
    assert ScanSites(p, [a, b, c], all) == SiteStep(ScanSites(p, [a, b], all), c, all);
  }

  lemma ScanSubsitesThree(p: PlanState, site: Site, tag: string, domain: string, a: Site, b: Site, c: Site)
    ensures ScanSubsites(p, site, tag, domain, [a, b, c]) ==
            SubsiteStep(SubsiteStep(SubsiteStep(p, site, tag, domain, a), site, tag, domain, b), site, tag, domain, c)
  {
    assert [a, b, c][..2] == [a, b];
    assert [a, b][..1] == [a];
    assert [a][..0] == [];
    assert ScanSubsites(p, site, tag, domain, [a]) == SubsiteStep(ScanSubsites(p, site, tag, domain, []), site, tag, domain, a);
    assert ScanSubsites(p, site, tag, domain, [a, b]) == SubsiteStep(ScanSubsites(p, site, tag, domain, [a]), site, tag, domain, b);
    assert ScanSubsites(p, site, tag, domain, [a, b, c]) == SubsiteStep(ScanSubsites(p, site, tag, domain, [a, b]), site, tag, domain, c);
  }

  lemma ScanSitesFour(p: PlanState, a: Site, b: Site, c: Site, d: Site, all: seq<Site>)
    ensures ScanSites(p, [a, b, c, d], all) ==
            SiteStep(SiteStep(SiteStep(SiteStep(p, a, all), b, all), c, all), d, all)
  {
    assert [a, b, c, d][..3] == [a, b, c];
    ScanSitesThree(p, a, b, c, all);
    assert ScanSites(p, [a, b, c, d], all) == SiteStep(ScanSites(p, [a, b, c], all), d, all);
  }

  lemma ScanSubsitesFour(p: PlanState, site: Site, tag: string, domain: string, a: Site, b: Site, c: Site, d: Site)
    ensures ScanSubsites(p, site, tag, domain, [a, b, c, d]) ==
            SubsiteStep(SubsiteStep(SubsiteStep(SubsiteStep(p, site, tag, domain, a), site, tag, domain, b),
                                    site, tag, domain, c), site, tag, domain, d)
  {
    assert [a, b, c, d][..3] == [a, b, c];
    ScanSubsitesThree(p, site, tag, domain, a, b, c);
    assert ScanSubsites(p, site, tag, domain, [a, b, c, d]) ==
           SubsiteStep(ScanSubsites(p, site, tag, domain, [a, b, c]), site, tag, domain, d);
  }

  lemma OneTagSite(p: PlanState, site: Site, tag: string, all: seq<Site>)
    requires site.tags == Some([tag])
    ensures SiteStep(p, site, all) == TagStep(p, site, tag, all)
  {
    assert [tag][..0] == [];
    assert ScanTags(p, site, [tag], all) == TagStep(ScanTags(p, site, [], all), site, tag, all);
  }

  lemma SkipSelf(p: PlanState, site: Site, tag: string, domain: string)
    ensures SubsiteStep(p, site, tag, domain, site) == p
  {
  }

  lemma SkipUntagged(p: PlanState, site: Site, tag: string, domain: string, sub: Site)
    requires !CarriesTag(sub, tag)
    ensures SubsiteStep(p, site, tag, domain, sub) == p
  {
  }

  lemma SkipScheduled(p: PlanState, site: Site, tag: string, domain: string, sub: Site)
    requires PairKey(site.id, sub.id) in p.keys
    ensures SubsiteStep(p, site, tag, domain, sub) == p
  {
  }

  lemma Schedule(p: PlanState, site: Site, tag: string, domain: string, sub: Site)
    requires CarriesTag(sub, tag) && sub.id != site.id && PairKey(site.id, sub.id) !in p.keys
    ensures SubsiteStep(p, site, tag, domain, sub) ==
            PlanState(p.topology, p.keys + [PairKey(site.id, sub.id)],
                      p.links + [Link(domain, site.id, site.name, sub.id, sub.name)])
  {
  }

  const NY: Site := Site("s1", "NY", Some([Corp]))
  const LA: Site := Site("s2", "LA", Some([Corp]))
  const TX: Site := Site("s3", "TX", Some([]))

  const Corp3: seq<Site> := [NY, LA, TX]

  lemma CorpFirstSite()
    ensures SiteStep(Initial, NY, Corp3) ==
            PlanState(Topology(["corp"], map["corp" := ["NY (s1)"]]), ["s1s2"], [Link("corp", "s1", "NY", "s2", "LA")])
  {
    CorpAndLabQualify();
    assert PairKey("s1", "s2") == "s1s2" by { assert LexLe("s1", "s2"); }
    OneTagSite(Initial, NY, Corp, Corp3);
    var q := Initial.(topology := AddMember(Empty, "corp", Label(NY)));
    assert Label(NY) == "NY (s1)";
    assert []+["corp"] == ["corp"];
    assert map[]["corp" := ["NY (s1)"]] == map["corp" := ["NY (s1)"]];
    assert q.topology == Topology(["corp"], map["corp" := ["NY (s1)"]]);
    ScanSubsitesThree(q, NY, Corp, "corp", NY, LA, TX);
    SkipSelf(q, NY, Corp, "corp");
    Schedule(q, NY, Corp, "corp", LA);
    SkipUntagged(SubsiteStep(q, NY, Corp, "corp", LA), NY, Corp, "corp", TX);
  }

  lemma CorpSecondSite(p: PlanState)
    requires p.topology == Topology(["corp"], map["corp" := ["NY (s1)"]]) && p.keys == ["s1s2"]
    ensures SiteStep(p, LA, Corp3) == p.(topology := Topology(["corp"], map["corp" := ["NY (s1)", "LA (s2)"]]))
  {
    CorpAndLabQualify();
    assert PairKey("s2", "s1") == "s1s2" by { assert LexLe("s1", "s2"); PairKeySymmetric("s1", "s2"); }
    OneTagSite(p, LA, Corp, Corp3);
    var q := p.(topology := AddMember(p.topology, "corp", Label(LA)));
    assert Label(LA) == "LA (s2)";
    assert ["NY (s1)"] + ["LA (s2)"] == ["NY (s1)", "LA (s2)"];
    assert map["corp" := ["NY (s1)"]]["corp" := ["NY (s1)", "LA (s2)"]] == map["corp" := ["NY (s1)", "LA (s2)"]];
    assert q.topology == Topology(["corp"], map["corp" := ["NY (s1)", "LA (s2)"]]);
    ScanSubsitesThree(q, LA, Corp, "corp", NY, LA, TX);
    SkipScheduled(q, LA, Corp, "corp", NY);
    SkipSelf(q, LA, Corp, "corp");
    SkipUntagged(q, LA, Corp, "corp", TX);
  }

  /** Two sites tagged for "corp" and a third with an empty tag list: one
      link from the first to the second, and both labels in the report. */
  lemma CorpScenario()
    ensures Plan(Corp3).links == [Link("corp", "s1", "NY", "s2", "LA")]
    ensures Plan(Corp3).topology == Topology(["corp"], map["corp" := ["NY (s1)", "LA (s2)"]])
  {
    ScanSitesThree(Initial, NY, LA, TX, Corp3);
    CorpFirstSite();
    var p1 := SiteStep(Initial, NY, Corp3);
    CorpSecondSite(p1);
    var p2 := SiteStep(p1, LA, Corp3);
    assert SiteStep(p2, TX, Corp3) == p2 by {
      assert ScanTags(p2, TX, [], Corp3) == p2;
    }
  }

  const A: Site := Site("a", "A", Some([Corp, Lab]))
  const B: Site := Site("b", "B", Some([Corp, Lab]))

  lemma TwoTagSite(p: PlanState, site: Site, t1: string, t2: string, all: seq<Site>)
    requires site.tags == Some([t1, t2])
    ensures SiteStep(p, site, all) == TagStep(TagStep(p, site, t1, all), site, t2, all)
  {
    assert [t1, t2][..1] == [t1];
    assert [t1][..0] == [];
    assert ScanTags(p, site, [t1], all) == TagStep(ScanTags(p, site, [], all), site, t1, all);
    assert ScanTags(p, site, [t1, t2], all) == TagStep(ScanTags(p, site, [t1], all), site, t2, all);
  }

  lemma ScanSitesTwo(p: PlanState, a: Site, b: Site, all: seq<Site>)
    ensures ScanSites(p, [a, b], all) == SiteStep(SiteStep(p, a, all), b, all)
  {
    assert [a, b][..1] == [a];
    assert [a][..0] == [];
    assert ScanSites(p, [a], all) == SiteStep(ScanSites(p, [], all), a, all);
    assert ScanSites(p, [a, b], all) == SiteStep(ScanSites(p, [a], all), b, all);
  }

  lemma ScanSubsitesTwo(p: PlanState, site: Site, tag: string, domain: string, a: Site, b: Site)
    ensures ScanSubsites(p, site, tag, domain, [a, b]) ==
            SubsiteStep(SubsiteStep(p, site, tag, domain, a), site, tag, domain, b)
  {
    assert [a, b][..1] == [a];
    assert [a][..0] == [];
    assert ScanSubsites(p, site, tag, domain, [a]) == SubsiteStep(ScanSubsites(p, site, tag, domain, []), site, tag, domain, a);
    assert ScanSubsites(p, site, tag, domain, [a, b]) == SubsiteStep(ScanSubsites(p, site, tag, domain, [a]), site, tag, domain, b);
  }

  /** When the key of a pair is already scheduled, a tag step adds nothing
      to the keys or links, whatever the tag. */
  lemma TagStepAllScheduled(p: PlanState, site: Site, tag: string, other: Site)
    requires PairKey(site.id, other.id) in p.keys
    ensures TagStep(p, site, tag, [site, other]).keys == p.keys
    ensures TagStep(p, site, tag, [site, other]).links == p.links
  {
    if Qualifies(tag) {
      var q := p.(topology := AddMember(p.topology, Domain(tag), Label(site)));
      ScanSubsitesTwo(q, site, tag, Domain(tag), site, other);
      SkipSelf(q, site, tag, Domain(tag));
      SkipScheduled(q, site, tag, Domain(tag), other);
    }
  }

  lemma TagStepAllScheduledReversed(p: PlanState, site: Site, tag: string, other: Site)
    requires PairKey(site.id, other.id) in p.keys
    ensures TagStep(p, site, tag, [other, site]).keys == p.keys
    ensures TagStep(p, site, tag, [other, site]).links == p.links
  {
    if Qualifies(tag) {
      var q := p.(topology := AddMember(p.topology, Domain(tag), Label(site)));
      ScanSubsitesTwo(q, site, tag, Domain(tag), other, site);
      SkipScheduled(q, site, tag, Domain(tag), other);
      SkipSelf(q, site, tag, Domain(tag));
    }
  }

  /** Two sites sharing two domain tags are linked once, under the first. */
  lemma TwoSharedDomainsLinkOnce()
    ensures Plan([A, B]).links == [Link("corp", "a", "A", "b", "B")]
  {
    var all := [A, B];
    CorpAndLabQualify();
    var key := PairKey("a", "b");
    assert key == "ab" by { assert LexLe("a", "b"); }
    assert PairKey("b", "a") == key by { PairKeySymmetric("a", "b"); }
    ScanSitesTwo(Initial, A, B, all);
    // A, tag Corp: B is found
    TwoTagSite(Initial, A, Corp, Lab, all);
    var q := Initial.(topology := AddMember(Empty, "corp", Label(A)));
    ScanSubsitesTwo(q, A, Corp, "corp", A, B);
    SkipSelf(q, A, Corp, "corp");
    Schedule(q, A, Corp, "corp", B);
    var p1 := TagStep(Initial, A, Corp, all);
    assert p1.keys == [key] && p1.links == [Link("corp", "a", "A", "b", "B")];
    // every later step finds the key scheduled
    TagStepAllScheduled(p1, A, Lab, B);
    var p2 := TagStep(p1, A, Lab, all);
    TwoTagSite(p2, B, Corp, Lab, all);
    TagStepAllScheduledReversed(p2, B, Corp, A);
    TagStepAllScheduledReversed(TagStep(p2, B, Corp, all), B, Lab, A);
  }

  const AB: Site := Site("ab", "AB", Some([Corp]))
  const C: Site := Site("c", "C", Some([Corp]))
  const A1: Site := Site("a", "A", Some([Lab]))
  const BC: Site := Site("bc", "BC", Some([Lab]))

  const Collision: seq<Site> := [AB, C, A1, BC]

  lemma CollisionKeys()
    ensures PairKey("ab", "c") == "abc" && PairKey("c", "ab") == "abc"
    ensures PairKey("a", "bc") == "abc" && PairKey("bc", "a") == "abc"
    ensures PairKey("ab", "a") != "abc" && PairKey("ab", "bc") != "abc"
  {
    PairKeyCollides();
    PairKeySymmetric("ab", "c");
    PairKeySymmetric("a", "bc");
    assert |PairKey("ab", "bc")| == 4;
    assert PairKey("ab", "a") == "ab" + "a" || PairKey("ab", "a") == "a" + "ab";
    assert ("ab" + "a")[2] == 'a' && ("a" + "ab")[2] == 'b' && "abc"[2] == 'c';
  }

  lemma QuietStep(p: PlanState, site: Site, tag: string, sub: Site)
    requires sub == site || !CarriesTag(sub, tag) || PairKey(site.id, sub.id) in p.keys
    ensures SubsiteStep(p, site, tag, Domain(tag), sub) == p
  {
  }

  /** An outer site each of whose candidates is itself, a site without its
      tag, or a pair already scheduled changes the report only. */
  lemma QuietSite(p: PlanState, site: Site, tag: string)
    requires site.tags == Some([tag])
    requires AB == site || !CarriesTag(AB, tag) || PairKey(site.id, AB.id) in p.keys
    requires C == site || !CarriesTag(C, tag) || PairKey(site.id, C.id) in p.keys
    requires A1 == site || !CarriesTag(A1, tag) || PairKey(site.id, A1.id) in p.keys
    requires BC == site || !CarriesTag(BC, tag) || PairKey(site.id, BC.id) in p.keys
    ensures SiteStep(p, site, Collision).keys == p.keys && SiteStep(p, site, Collision).links == p.links
  {
    OneTagSite(p, site, tag, Collision);
    if Qualifies(tag) {
      var q := p.(topology := AddMember(p.topology, Domain(tag), Label(site)));
      ScanSubsitesFour(q, site, tag, Domain(tag), AB, C, A1, BC);
      QuietStep(q, site, tag, AB);
      QuietStep(q, site, tag, C);
      QuietStep(q, site, tag, A1);
      QuietStep(q, site, tag, BC);
    }
  }

  lemma CollisionFirstSite()
    ensures SiteStep(Initial, AB, Collision).keys == ["abc"]
    ensures SiteStep(Initial, AB, Collision).links == [Link("corp", "ab", "AB", "c", "C")]
  {
    CorpAndLabQualify();
    CollisionKeys();
    OneTagSite(Initial, AB, Corp, Collision);
    var q := Initial.(topology := AddMember(Empty, "corp", Label(AB)));
    ScanSubsitesFour(q, AB, Corp, "corp", AB, C, A1, BC);
    SkipSelf(q, AB, Corp, "corp");
    Schedule(q, AB, Corp, "corp", C);
    var q2 := SubsiteStep(q, AB, Corp, "corp", C);
    SkipUntagged(q2, AB, Corp, "corp", A1);
    SkipUntagged(q2, AB, Corp, "corp", BC);
  }

  /** Pair keys collide for ("ab", "c") and ("a", "bc"): once the first pair
      is planned, the sites "a" and "bc" share a qualifying tag yet get no link. */
  lemma CollidingKeysSkipPair()
    ensures CarriesTag(A1, Lab) && CarriesTag(BC, Lab) && Qualifies(Lab)
    ensures Plan(Collision).links == [Link("corp", "ab", "AB", "c", "C")]
  {
    CorpAndLabQualify();
    CollisionKeys();
    ScanSitesFour(Initial, AB, C, A1, BC, Collision);
    CollisionFirstSite();
    var p1 := SiteStep(Initial, AB, Collision);
    QuietSite(p1, C, Corp);
    var p2 := SiteStep(p1, C, Collision);
    QuietSite(p2, A1, Lab);
    var p3 := SiteStep(p2, A1, Collision);
    QuietSite(p3, BC, Lab);
  }

  const X: Site := Site("x", "X", Some([Lab]))
  const Y: Site := Site("y", "Y", Some([Lab]))
  const Z: Site := Site("z", "Z", Some([Lab]))
  const Lab3: seq<Site> := [X, Y, Z]

  lemma Lab3Keys()
    ensures PairKey("x", "y") == "xy" && PairKey("y", "x") == "xy"
    ensures PairKey("x", "z") == "xz" && PairKey("z", "x") == "xz"
    ensures PairKey("y", "z") == "yz" && PairKey("z", "y") == "yz"
    ensures "xy" != "xz" && "xy" != "yz" && "xz" != "yz"
  {
    assert LexLe("x", "y") && LexLe("x", "z") && LexLe("y", "z");
    PairKeySymmetric("x", "y");
    PairKeySymmetric("x", "z");
    PairKeySymmetric("y", "z");
    assert "xy"[1] != "xz"[1] && "xy"[0] != "yz"[0] && "xz"[0] != "yz"[0];
  }

  lemma Lab3First()
    ensures SiteStep(Initial, X, Lab3).keys == ["xy", "xz"]
    ensures SiteStep(Initial, X, Lab3).links == [Link("lab", "x", "X", "y", "Y"), Link("lab", "x", "X", "z", "Z")]
  {
    CorpAndLabQualify();
    Lab3Keys();
    OneTagSite(Initial, X, Lab, Lab3);
    var q := Initial.(topology := AddMember(Empty, "lab", Label(X)));
    ScanSubsitesThree(q, X, Lab, "lab", X, Y, Z);
    SkipSelf(q, X, Lab, "lab");
    Schedule(q, X, Lab, "lab", Y);
    Schedule(SubsiteStep(q, X, Lab, "lab", Y), X, Lab, "lab", Z);
  }

  lemma Lab3Second(p: PlanState)
    requires p.keys == ["xy", "xz"]
    ensures SiteStep(p, Y, Lab3).keys == ["xy", "xz", "yz"]
    ensures SiteStep(p, Y, Lab3).links == p.links + [Link("lab", "y", "Y", "z", "Z")]
  {
    CorpAndLabQualify();
    Lab3Keys();
    OneTagSite(p, Y, Lab, Lab3);
    var q := p.(topology := AddMember(p.topology, "lab", Label(Y)));
    ScanSubsitesThree(q, Y, Lab, "lab", X, Y, Z);
    SkipScheduled(q, Y, Lab, "lab", X);
    SkipSelf(q, Y, Lab, "lab");
    Schedule(q, Y, Lab, "lab", Z);
  }

  lemma Lab3Third(p: PlanState)
    requires p.keys == ["xy", "xz", "yz"]
    ensures SiteStep(p, Z, Lab3).keys == p.keys && SiteStep(p, Z, Lab3).links == p.links
  {
    CorpAndLabQualify();
    Lab3Keys();
    OneTagSite(p, Z, Lab, Lab3);
    var q := p.(topology := AddMember(p.topology, "lab", Label(Z)));
    ScanSubsitesThree(q, Z, Lab, "lab", X, Y, Z);
    SkipScheduled(q, Z, Lab, "lab", X);
    SkipScheduled(q, Z, Lab, "lab", Y);
    SkipSelf(q, Z, Lab, "lab");
  }

  /** Three sites sharing one domain tag: exactly the three pairs, each once. */
  lemma ThreeSitesFullMesh()
    ensures Plan(Lab3).links ==
            [Link("lab", "x", "X", "y", "Y"), Link("lab", "x", "X", "z", "Z"), Link("lab", "y", "Y", "z", "Z")]
  {
    ScanSitesThree(Initial, X, Y, Z, Lab3);
    Lab3First();
    var p1 := SiteStep(Initial, X, Lab3);
    Lab3Second(p1);
    Lab3Third(SiteStep(p1, Y, Lab3));
  }
}
