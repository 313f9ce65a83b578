/** One run of the tool: plan, stop when there is nothing to mesh, ask for
    confirmation, then materialize every planned link. The site snapshot,
    the responses to the prompt, the WAN interfaces of each site and the
    outcome of each link-creation request are parameters. */
module MeshTool {
  import opened Planner
  import opened Confirmation
  import opened WanPairing

  datatype Outcome =
    | NothingToMesh                   // the plan is empty; no prompt is shown
    | Declined                        // the first answer was "no"
    | InputEnded                      // the responses ran out before an answer
    | Applied(attempts: seq<Attempt>) // the first answer was "yes"

  /** The requests of every planned link, link after link. */
  function AllRequests(links: seq<Link>, wansOf: string -> seq<WanInterface>): seq<LinkRequest>
    decreases |links|
  {
    if links == [] then []
    else
      var l := links[|links| - 1];
      AllRequests(links[..|links| - 1], wansOf) + WanPairs(l.site1, wansOf(l.site1), l.site2, wansOf(l.site2))
  }

  lemma AttemptedConcat(a: seq<LinkRequest>, b: seq<LinkRequest>, post: LinkRequest -> bool)
    ensures Attempted(a + b, post) == Attempted(a, post) + Attempted(b, post)
  {
  }

  /** Every request of the run joins the two sites of a planned link through
      two of their WAN interfaces of the same type. */
  lemma {:induction false} AllRequestsFromLinks(links: seq<Link>, wansOf: string -> seq<WanInterface>, r: LinkRequest)
    requires r in AllRequests(links, wansOf)
    ensures exists k :: 0 <= k < |links| && r.site1 == links[k].site1 && r.site2 == links[k].site2 &&
              exists i, j :: 0 <= i < |wansOf(links[k].site1)| && 0 <= j < |wansOf(links[k].site2)| &&
                wansOf(links[k].site1)[i].wanType == wansOf(links[k].site2)[j].wanType &&
                r.wan1 == wansOf(links[k].site1)[i].id && r.wan2 == wansOf(links[k].site2)[j].id
    decreases |links|
  {
    var init := links[..|links| - 1];
    var l := links[|links| - 1];
    if r in AllRequests(init, wansOf) {
      AllRequestsFromLinks(init, wansOf, r);
      var k :| 0 <= k < |init| && r.site1 == init[k].site1 && r.site2 == init[k].site2 &&
               exists i, j :: 0 <= i < |wansOf(init[k].site1)| && 0 <= j < |wansOf(init[k].site2)| &&
                 wansOf(init[k].site1)[i].wanType == wansOf(init[k].site2)[j].wanType &&
                 r.wan1 == wansOf(init[k].site1)[i].id && r.wan2 == wansOf(init[k].site2)[j].id;
      assert links[k] == init[k];
    } else {
      WanPairsMembership(l.site1, wansOf(l.site1), l.site2, wansOf(l.site2), r);
      assert links[|links| - 1] == l;
    }
  }

  /** Conversely, every pair of WAN interfaces of equal type of every planned
      link is requested. */
  lemma {:induction false} AllRequestsComplete(links: seq<Link>, wansOf: string -> seq<WanInterface>,
                                               k: int, i: int, j: int)
    requires 0 <= k < |links|
    requires 0 <= i < |wansOf(links[k].site1)| && 0 <= j < |wansOf(links[k].site2)|
    requires wansOf(links[k].site1)[i].wanType == wansOf(links[k].site2)[j].wanType
    ensures LinkRequest(links[k].site1, wansOf(links[k].site1)[i].id, links[k].site2, wansOf(links[k].site2)[j].id)
            in AllRequests(links, wansOf)
    decreases |links|
  {
    var init := links[..|links| - 1];
    var l := links[k];
    var r := LinkRequest(l.site1, wansOf(l.site1)[i].id, l.site2, wansOf(l.site2)[j].id);
    if k < |init| {
      assert init[k] == links[k];
      AllRequestsComplete(init, wansOf, k, i, j);
    } else {
      WanPairsMembership(l.site1, wansOf(l.site1), l.site2, wansOf(l.site2), r);
    }
  }

  /** The run. Python's `go` returns False on an empty plan and on "no",
      and otherwise materializes every planned link in plan order. */
  method Go(sites: seq<Site>, responses: seq<string>, wansOf: string -> seq<WanInterface>,
            post: LinkRequest -> bool)
    returns (plan: PlanState, outcome: Outcome, consumed: nat)
    requires UniqueIds(sites)
    ensures plan == Plan(sites)
    ensures consumed <= |responses|
    ensures plan.links == [] <==> outcome == NothingToMesh
    ensures outcome == NothingToMesh ==> consumed == 0
    ensures outcome == Declined ==>
              0 < consumed && IsNo(responses[consumed - 1]) && NoAnswerBefore(responses, consumed - 1)
    ensures outcome == InputEnded ==> consumed == |responses| && NoAnswerBefore(responses, |responses|)
    ensures outcome.Applied? ==>
              && 0 < consumed && IsYes(responses[consumed - 1]) && NoAnswerBefore(responses, consumed - 1)
              && outcome.attempts == Attempted(AllRequests(plan.links, wansOf), post)
  {
    plan := PlanMesh(sites);
    if |plan.links| == 0 {
      return plan, NothingToMesh, 0;
    }
    var d;
    d, consumed := AwaitConfirmation(responses);
    if d == Decline {
      return plan, Declined, consumed;
    } else if d == Exhausted {
      return plan, InputEnded, consumed;
    }
    var attempts: seq<Attempt> := [];
    var n := 0;
    while n < |plan.links|
      invariant 0 <= n <= |plan.links|
      invariant attempts == Attempted(AllRequests(plan.links[..n], wansOf), post)
    {
      var link := plan.links[n];
      var linkAttempts := MeshTwoSites(link.site1, wansOf(link.site1), link.site2, wansOf(link.site2), post);
      assert plan.links[..n + 1][..n] == plan.links[..n];
      AttemptedConcat(AllRequests(plan.links[..n], wansOf),
                      WanPairs(link.site1, wansOf(link.site1), link.site2, wansOf(link.site2)), post);
      attempts := attempts + linkAttempts;
      n := n + 1;
    }
    assert plan.links[..n] == plan.links;
    outcome := Applied(attempts);
  }
}
