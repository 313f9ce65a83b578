# Partial-mesh planner, modelled in Dafny

The CloudGenix partial-mesh tool reads a snapshot of sites and looks at their
tags. A tag that starts with `AUTO-MESH_` names a mesh domain. Sites sharing a
domain tag should have branch-to-branch links, and the tool plans and creates
those links. This project models the core of `go` in
`cg-partial-mesh-tool.py` and proves what its result means:

- **The planning pass.** This is one pass of nested loops: over sites, their
  tags, every site again, and that site's tags.
  - It builds the topology report. This is an insertion-ordered dict from
    domain to member labels `name (id)`.
  - It builds the list of planned links (`new_anynet_links`).
  - It keeps the list of pair keys already scheduled (`meshed_domains`). A
    pair key is the two site ids, sorted and concatenated.
- **The empty-plan early return and the confirmation loop.** The loop
  prompts until a response is, in any letter case, `yes` or `no`.
- **The pairing loop of `mesh_two_sites`.** It sends one link-creation
  request per pair of WAN interfaces with the same type, in left-major order.
  A failed request never stops the loop.

The site list, the WAN interfaces of each site, the prompt responses and the
outcome of each request are all parameters.

Modules:

- `Tags` (`tags.dfy`): the prefix test, the domain strip (Python's
  `str.replace`, which removes every occurrence) and the pair key. The key
  uses Python's ordering of strings: by code point, with a prefix first.
- `TopologyReport` (`topology.dfy`): the ordered dict, as a key order plus a
  map. The report built from the scan is proved to be the stream of qualifying
  tag occurrences, grouped by domain.
- `Planner` (`planner.dfy`):
  - the pass, written as prefix folds `Plan`, `ScanSites`, `ScanTags` and
    `ScanSubsites`;
  - the invariant the pass keeps;
  - the loop method `PlanMesh`, proved equal to `Plan`.
- `Confirmation` (`confirm.dfy`): the yes/no loop.
- `WanPairing` (`wan.dfy`): the WAN pairing loop.
- `MeshTool` (`tool.dfy`): the whole run, `Go`.
- `PlannerExamples` (`examples.dfy`): small inventories with known plans.
  These include a pair-key collision in which two sites share a qualifying
  tag but get no link.

`Plan` is a function, so planning the same inventory twice gives the same
plan.

Where the natural-language description of the tool and the code differ, the
model follows the code:

- A tag qualifies only when it is longer than 11 characters (line 116). So at
  least two characters must follow the 10-character prefix, and `AUTO-MESH_x`
  is rejected. The program's own description (lines 7-11) and the comment on
  line 120 ask only for "data after the prefix", which one character would
  already satisfy.
- A domain is not always non-empty. `AUTO-MESH_AUTO-MESH_` qualifies, but
  every occurrence of the prefix is removed, so it names the empty domain.
- The self-pair test on line 132 is Python's `is not`, which compares object
  identity. It is modelled as id inequality. The two agree when site ids are
  unique, and `PlanMesh` and `Go` require unique ids.

## Model

| member | source | states |
|---|---|---|
| `Tags.Qualifies` | cg-partial-mesh-tool.py:116 | definition; its properties are `Tags.QualifiesIff` and `Tags.OneCharacterSuffixRejected` |
| `Tags.RemoveAll` | cg-partial-mesh-tool.py:115 | definition of `str.replace(p, "")`, never longer than its input; its properties are `Tags.RemoveAllIdentityIff` and `Tags.DoublePrefixNamesEmptyDomain` |
| `Tags.Domain` | cg-partial-mesh-tool.py:115 | definition; its properties are `Tags.DomainOfPlainSuffix` and `Tags.DoublePrefixNamesEmptyDomain` |
| `Tags.QualifiesIff` | cg-partial-mesh-tool.py:116 | a tag qualifies iff it is the prefix followed by at least two characters |
| `Tags.OneCharacterSuffixRejected` | cg-partial-mesh-tool.py:116 | the prefix followed by a single character does not qualify |
| `Tags.RemoveAllIdentityIff` | cg-partial-mesh-tool.py:115 | removing every occurrence of a pattern leaves a string unchanged iff the pattern does not occur in it |
| `Tags.DomainOfPlainSuffix` | cg-partial-mesh-tool.py:115 | the domain of prefix + rest is rest when rest holds no further prefix |
| `Tags.DoublePrefixNamesEmptyDomain` | cg-partial-mesh-tool.py:115-116 | every occurrence is removed, not only the leading one: the doubled prefix qualifies and names the empty domain |
| `Tags.PairKey` | cg-partial-mesh-tool.py:126 | the key is one of the two concatenations of the ids, of their combined length |
| `Tags.LexLeTotal` | cg-partial-mesh-tool.py:126 | the string order used by `sorted` is total |
| `Tags.LexLeAntisymmetric` | cg-partial-mesh-tool.py:126 | two strings each at most the other are equal |
| `Tags.PairKeySymmetric` | cg-partial-mesh-tool.py:126 | key(a, b) == key(b, a) |
| `Tags.PairKeyCollides` | cg-partial-mesh-tool.py:126 | the key is not injective: ("a", "bc") and ("ab", "c") share the key "abc" |
| `Tags.PairKeyInjectiveOnEqualLengths` | cg-partial-mesh-tool.py:126 | when all four ids have equal length, equal keys mean the same unordered pair |
| `TopologyReport.AddMember` | cg-partial-mesh-tool.py:117-119 | adding a label appends it to that domain only, keeps the dict well formed, and adds the domain at the end of the key order only when it is new |
| `TopologyReport.AddAll` | cg-partial-mesh-tool.py:117-119 | definition (the report update repeated over occurrences); its properties are `TopologyReport.AddAllSpec` and `TopologyReport.GroupByDomain` |
| `TopologyReport.AddAllConcat` | cg-partial-mesh-tool.py:113-119 | adding two runs of occurrences is adding their concatenation |
| `TopologyReport.LabelsOfEmptyIff` | cg-partial-mesh-tool.py:117-119 | a domain gets no label iff no occurrence names it |
| `TopologyReport.AddAllSpec` | cg-partial-mesh-tool.py:113-119 | adding occurrences in order appends each label to its own domain and grows the key order by new domains in first-appearance order |
| `TopologyReport.GroupByDomain` | cg-partial-mesh-tool.py:113-119 | starting from an empty dict: a domain is a key iff an occurrence names it, its list is exactly those labels in scan order, no list is empty, and the keys come in first-appearance order |
| `Planner.Label` | cg-partial-mesh-tool.py:119 | definition of the report label `name (id)` |
| `Planner.SubsiteStep` | cg-partial-mesh-tool.py:122-142 | definition of one inner-site iteration; its properties are `Planner.SubsiteStepSpec` |
| `Planner.ScanSubsites` | cg-partial-mesh-tool.py:122-142 | definition of the inner site loop; its properties are `Planner.ScanSubsitesSpec` and `Planner.ScanSubsitesForward` |
| `Planner.TagStep` | cg-partial-mesh-tool.py:115-142 | definition of one outer tag; its properties are `Planner.TagStepSpec` |
| `Planner.ScanTags` | cg-partial-mesh-tool.py:114-142 | definition of the tag loop; its properties are `Planner.ScanTagsSpec` and `Planner.ScanTagsTopology` |
| `Planner.SiteStep` | cg-partial-mesh-tool.py:109-142 | definition of one outer site, `None` tags skipped; its properties are `Planner.SiteStepSpec` |
| `Planner.ScanSites` | cg-partial-mesh-tool.py:109-142 | definition of the outer loop; its properties are `Planner.ScanSitesSpec` and `Planner.ScanSitesTopology` |
| `Planner.Plan` | cg-partial-mesh-tool.py:105-142 | definition of the whole pass from empty state; its properties are `Planner.PlanSpec`, `Planner.PlanTopology`, `Planner.LinksGoForward` and `Planner.AtMostOncePerPair` |
| `Planner.SubsiteStepSpec` | cg-partial-mesh-tool.py:124-142 | one inner iteration keeps the invariant (keys track links, no duplicate key, every link sound), only extends the keys, and leaves the pair's key scheduled when the other site carries the tag |
| `Planner.ScanSubsitesSpec` | cg-partial-mesh-tool.py:122-142 | the scan over all sites keeps the invariant and schedules the key of every other site carrying the tag |
| `Planner.TagStepSpec` | cg-partial-mesh-tool.py:115-142 | one tag of the outer site keeps the invariant and, if it qualifies, covers every other site carrying it |
| `Planner.ScanTagsSpec` | cg-partial-mesh-tool.py:114-142 | the loop over a site's tags keeps the invariant and covers each qualifying tag |
| `Planner.ScanSitesSpec` | cg-partial-mesh-tool.py:109-142 | the outer loop keeps the invariant and covers every qualifying tag of every scanned site |
| `Planner.ScanSitesTopology` | cg-partial-mesh-tool.py:113-119 | the report after the pass is the qualifying tag occurrences added in scan order |
| `Planner.PlanSpec` | cg-partial-mesh-tool.py:105-142 | key i is the key of link i and keys never repeat; every link joins two distinct sites carrying the same qualifying tag, under its domain; every two distinct sites sharing a qualifying tag have their key scheduled |
| `Planner.ScanSubsitesForward` | cg-partial-mesh-tool.py:122-142 | while scanning for outer site a, every link added runs from site a to a site after it: an earlier site carrying the tag already scheduled its key when it was the outer site |
| `Planner.LinksGoForward` | cg-partial-mesh-tool.py:109-142 | every link runs from a site to a later site of the inventory: `site1`/`site1_name` are the outer-loop site, `site2`/`site2_name` a site after it |
| `Planner.PlanTopology` | cg-partial-mesh-tool.py:113-119 | a domain is in the report iff some qualifying occurrence names it; its members are those labels in scan order, duplicates kept; no list is empty, so the "No site members found" branch (lines 147-148) is unreachable |
| `Planner.AtMostOncePerPair` | cg-partial-mesh-tool.py:126-135 | no unordered pair is planned twice, in either orientation, even when it shares several domain tags |
| `Planner.SharedTagLinkedWhenIdsAlign` | cg-partial-mesh-tool.py:122-135 | when all ids have equal length, every two distinct sites sharing a qualifying tag have a link between them |
| `Planner.UntaggedSiteNeverLinked` | cg-partial-mesh-tool.py:113-129 | a site with a `None` or empty tag list adds no report entry and is in no link |
| `Planner.MatchesTag` | cg-partial-mesh-tool.py:128-133 | `tag_match` ends true iff some tag of the other site equals the tag and the other site is not the outer one |
| `Planner.PlanMesh` | cg-partial-mesh-tool.py:103-142 | the loops compute exactly `Plan(sites)`, hence a well-formed report grouped by domain, keys tracking links without duplicates, sound links and full coverage |
| `PlannerExamples.CorpScenario` | cg-partial-mesh-tool.py:109-142 | NY and LA tagged `AUTO-MESH_corp`, TX untagged: one link NY–LA, report `corp: [NY (s1), LA (s2)]` |
| `PlannerExamples.ThreeSitesFullMesh` | cg-partial-mesh-tool.py:122-142 | three sites on one domain tag get exactly the three pairs, each once, in discovery order |
| `PlannerExamples.TwoSharedDomainsLinkOnce` | cg-partial-mesh-tool.py:126-135 | two sites sharing two domain tags are linked once, under the first domain |
| `PlannerExamples.CollidingKeysSkipPair` | cg-partial-mesh-tool.py:126-135 | after ("ab", "c") is planned, sites "a" and "bc" share a qualifying tag but get no link, because their key collides |
| `Confirmation.Lower` | cg-partial-mesh-tool.py:160 | definition of ASCII lowercasing, length-preserving |
| `Confirmation.IsYes` | cg-partial-mesh-tool.py:160 | definition; its property is `Confirmation.IsYesIff` |
| `Confirmation.IsNo` | cg-partial-mesh-tool.py:163 | definition; its property is `Confirmation.IsNoIff` |
| `Confirmation.IsYesIff` | cg-partial-mesh-tool.py:160 | a response is a yes iff it is `yes` in any mix of ASCII cases |
| `Confirmation.IsNoIff` | cg-partial-mesh-tool.py:163 | a response is a no iff it is `no` in any mix of ASCII cases |
| `Confirmation.AwaitConfirmation` | cg-partial-mesh-tool.py:159-164 | the result is Proceed or Decline by the first response that is a yes or a no, and every earlier response re-prompted; Exhausted only when no response is an answer |
| `WanPairing.Row` | cg-partial-mesh-tool.py:175-177 | definition of the inner WAN loop; its properties are `WanPairing.RowMembership` and `WanPairing.RowLength` |
| `WanPairing.WanPairs` | cg-partial-mesh-tool.py:174-177 | definition of the double WAN loop; its properties are `WanPairing.WanPairsMembership` and `WanPairing.WanPairsLength` |
| `WanPairing.RowMembership` | cg-partial-mesh-tool.py:175-177 | one left interface makes a request iff a right interface has its type |
| `WanPairing.WanPairsMembership` | cg-partial-mesh-tool.py:174-177 | a request is sent iff it joins a left and a right interface of equal type |
| `WanPairing.RowLength` | cg-partial-mesh-tool.py:175-177 | one left interface makes as many requests as there are right interfaces of its type |
| `WanPairing.WanPairsLength` | cg-partial-mesh-tool.py:174-177 | exactly one request per (left, right) pair of equal type |
| `WanPairing.MeshTwoSites` | cg-partial-mesh-tool.py:171-177 | the double loop sends the left-major sequence of equal-type pairs, one attempt per matching pair; each request is kept in order with the outcome the remote side reports for it, and a failed request never stops the loop |
| `MeshTool.AllRequests` | cg-partial-mesh-tool.py:167-168 | definition of the requests of every link in plan order; its property is `MeshTool.AllRequestsFromLinks` |
| `MeshTool.AllRequestsFromLinks` | cg-partial-mesh-tool.py:166-177 | every request of the run joins the two sites of a planned link through WAN interfaces of equal type |
| `MeshTool.AllRequestsComplete` | cg-partial-mesh-tool.py:166-177 | conversely, every pair of WAN interfaces of equal type of every planned link is among the run's requests |
| `MeshTool.Go` | cg-partial-mesh-tool.py:103-168 | the plan is `Plan(sites)`; an empty plan returns before any prompt; otherwise the first yes/no answer decides, and on yes every planned link is materialized in plan order |

## Left out

- Command-line parsing, authentication and logout (lines 36-92, 196-207): argparse, token files, environment variables and the login loop are library I/O.
- The SDK calls (lines 99-103, 172-173, 189): the site list, the WAN interfaces and the request outcome are parameters. The `sys.exit("API Error")` on a failed listing is not modelled.
- `site_dict` and `wan_interface_dict` (lines 108, 112, 166) are filled or created but never read, so they are not modelled.
- The printing of the report, the plan and the request outcomes (lines 143-156, 161, 191-193) is not modelled. The "No site members found" branch is proved unreachable instead.
- The constant fields of the request body in `add_anynet_link` (lines 183-188) are left out. A request carries only its four endpoint ids.
- `str(tag)` and `str(user_input)` are identities here: tags and responses are strings.
- WAN listings whose `items` are missing, which make Python fail when iterating `None`: each site is given a sequence.
- `Confirmation.IsYesIff`: lowercasing is ASCII only. Python's Unicode `str.lower()` is not modelled.
- `Confirmation.AwaitConfirmation`: `input()` reads from a given sequence. Running out of responses, which Python raises as an end-of-input error, ends the loop as `Exhausted`.
- `Planner.PlanSpec`: two things are not stated as properties. The links are not stated to be grouped by outer site. A link's domain is not stated to come from the outer site's first shared qualifying tag. Both are fixed only by `PlanMesh`'s equality with `Plan`. `Planner.LinksGoForward` gives the direction of each link.
- `Planner.PlanMesh`: the self-pair test is id inequality, not Python object identity. The two agree under the unique-ids precondition.
