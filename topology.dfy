/** The topology report of the planner: a Python dict from domain to the labels
    of its members, which keeps its keys in insertion order. It is modelled as
    the key order plus a map. */
module TopologyReport {

  datatype Topology = Topology(order: seq<string>, members: map<string, seq<string>>)

  /** One qualifying tag occurrence: the domain it names and the label of its site. */
  datatype Occurrence = Occurrence(domain: string, siteLabel: string)

  const Empty: Topology := Topology([], map[])

  /** The dict's keys are distinct, the order lists exactly the keys, and no
      domain has an empty member list. */
  ghost predicate Valid(t: Topology) {
    && (forall i, j :: 0 <= i < j < |t.order| ==> t.order[i] != t.order[j])
    && (forall d :: d in t.members <==> d in t.order)
    && (forall d :: d in t.members ==> t.members[d] != [])
  }

  /** The member list of `d`, empty when `d` is not a key. */
  function Members(t: Topology, d: string): seq<string> {
    if d in t.members then t.members[d] else []
  }

  /** `if d not in topo: topo[d] = []` followed by `topo[d].append(label)`. */
  function AddMember(t: Topology, d: string, siteLabel: string): (r: Topology)
    ensures Valid(t) ==> Valid(r)
    ensures Members(r, d) == Members(t, d) + [siteLabel]
    ensures forall e :: e != d ==> Members(r, e) == Members(t, e)
    ensures Valid(t) ==> r.order == if d in t.order then t.order else t.order + [d]
  {
    if d in t.members then Topology(t.order, t.members[d := t.members[d] + [siteLabel]])
    else Topology(t.order + [d], t.members[d := [siteLabel]])
  }

  /** The topology after adding the occurrences in order. */
  function AddAll(t: Topology, occs: seq<Occurrence>): Topology
    decreases |occs|
  {
    if occs == [] then t
    else
      var o := occs[|occs| - 1];
      AddMember(AddAll(t, occs[..|occs| - 1]), o.domain, o.siteLabel)
  }

  // ---------------------------------------------------------------------------
  // Reference definitions, independent of the dict

  /** The labels of the occurrences that name `d`, in order, duplicates kept. */
  function LabelsOf(occs: seq<Occurrence>, d: string): seq<string>
    decreases |occs|
  {
    if occs == [] then []
    else
      var o := occs[|occs| - 1];
      LabelsOf(occs[..|occs| - 1], d) + (if o.domain == d then [o.siteLabel] else [])
  }

  /** The elements of `ds` that are not yet in `acc`, appended in order of
      first appearance. */
  function AppendNew(acc: seq<string>, ds: seq<string>): seq<string>
    decreases |ds|
  {
    if ds == [] then acc
    else
      var prev := AppendNew(acc, ds[..|ds| - 1]);
      if ds[|ds| - 1] in prev then prev else prev + [ds[|ds| - 1]]
  }

  function DomainsOf(occs: seq<Occurrence>): seq<string> {
    seq(|occs|, i requires 0 <= i < |occs| => occs[i].domain)
  }

  // ---------------------------------------------------------------------------
  // Lemmas

  lemma {:induction false} LabelsOfEmptyIff(occs: seq<Occurrence>, d: string)
    ensures LabelsOf(occs, d) == [] <==> forall i :: 0 <= i < |occs| ==> occs[i].domain != d
    decreases |occs|
  {
    if occs != [] {
      var init := occs[..|occs| - 1];
      LabelsOfEmptyIff(init, d);
      assert forall i :: 0 <= i < |init| ==> init[i] == occs[i];
    }
  }

  /** Adding occurrences one by one appends each label to its own domain and
      grows the key order by the domains not yet present. */
  lemma {:induction false} AddAllSpec(t: Topology, occs: seq<Occurrence>)
    requires Valid(t)
    ensures Valid(AddAll(t, occs))
    ensures forall d :: Members(AddAll(t, occs), d) == Members(t, d) + LabelsOf(occs, d)
    ensures AddAll(t, occs).order == AppendNew(t.order, DomainsOf(occs))
    decreases |occs|
  {
    if occs != [] {
      var init := occs[..|occs| - 1];
      var o := occs[|occs| - 1];
      AddAllSpec(t, init);
      assert DomainsOf(occs)[..|occs| - 1] == DomainsOf(init);
      forall d ensures Members(AddAll(t, occs), d) == Members(t, d) + LabelsOf(occs, d) {
        if d == o.domain {
          assert Members(t, d) + LabelsOf(init, d) + [o.siteLabel]
              == Members(t, d) + (LabelsOf(init, d) + [o.siteLabel]);
        } else {
          assert LabelsOf(occs, d) == LabelsOf(init, d) + [];
        }
      }
    }
  }

  /** Adding two runs of occurrences is adding their concatenation. */
  lemma {:induction false} AddAllConcat(t: Topology, a: seq<Occurrence>, b: seq<Occurrence>)
    ensures AddAll(AddAll(t, a), b) == AddAll(t, a + b)
    decreases |b|
  {
    if b != [] {
      var init := b[..|b| - 1];
      AddAllConcat(t, a, init);
      assert (a + b)[..|a + b| - 1] == a + init;
    } else {
      assert a + b == a;
    }
  }

  /** The report built from nothing is the occurrences grouped by domain: a
      domain is a key iff some occurrence names it, its list holds exactly
      the labels naming it in scan order, it is never empty, and the keys
      come in order of first appearance. */
  lemma GroupByDomain(occs: seq<Occurrence>)
    ensures Valid(AddAll(Empty, occs))
    ensures forall d :: d in AddAll(Empty, occs).members <==>
                        exists i :: 0 <= i < |occs| && occs[i].domain == d
    ensures forall d :: Members(AddAll(Empty, occs), d) == LabelsOf(occs, d)
    ensures forall d :: d in AddAll(Empty, occs).members ==> AddAll(Empty, occs).members[d] != []
    ensures AddAll(Empty, occs).order == AppendNew([], DomainsOf(occs))
  {
    AddAllSpec(Empty, occs);
    var r := AddAll(Empty, occs);
    forall d ensures d in r.members <==> exists i :: 0 <= i < |occs| && occs[i].domain == d {
      LabelsOfEmptyIff(occs, d);
    }
  }
}
