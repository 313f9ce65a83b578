/** Link materialization for one planned pair: every WAN interface of the
    first site is paired with every WAN interface of the second site of the
    same type, in left-major order, and one link-creation request is issued
    per pair. A request's outcome never stops the loop. */
module WanPairing {

  datatype WanInterface = WanInterface(id: string, wanType: string)

  /** The endpoints of one link-creation request. */
  datatype LinkRequest = LinkRequest(site1: string, wan1: string, site2: string, wan2: string)

  /** A request together with whether the remote side accepted it. */
  datatype Attempt = Attempt(request: LinkRequest, succeeded: bool)

  /** The requests of one left interface, in the order of the right interfaces. */
  function Row(site1: string, left: WanInterface, site2: string, rights: seq<WanInterface>): seq<LinkRequest>
    decreases |rights|
  {
    if rights == [] then []
    else
      var right := rights[|rights| - 1];
      Row(site1, left, site2, rights[..|rights| - 1]) +
      (if left.wanType == right.wanType then [LinkRequest(site1, left.id, site2, right.id)] else [])
  }

  /** The requests of all left interfaces, row after row. */
  function WanPairs(site1: string, lefts: seq<WanInterface>, site2: string, rights: seq<WanInterface>): seq<LinkRequest>
    decreases |lefts|
  {
    if lefts == [] then []
    else WanPairs(site1, lefts[..|lefts| - 1], site2, rights) + Row(site1, lefts[|lefts| - 1], site2, rights)
  }

  /** Each request sent, with the outcome `post` reports for it. */
  function Attempted(requests: seq<LinkRequest>, post: LinkRequest -> bool): seq<Attempt> {
    seq(|requests|, k requires 0 <= k < |requests| => Attempt(requests[k], post(requests[k])))
  }

  /** How many interfaces of `ws` have type `t`. */
  function CountType(ws: seq<WanInterface>, t: string): nat
    decreases |ws|
  {
    if ws == [] then 0
    else CountType(ws[..|ws| - 1], t) + (if ws[|ws| - 1].wanType == t then 1 else 0)
  }

  /** The number of (left, right) pairs of equal type. */
  function MatchingPairs(lefts: seq<WanInterface>, rights: seq<WanInterface>): nat
    decreases |lefts|
  {
    if lefts == [] then 0
    else MatchingPairs(lefts[..|lefts| - 1], rights) + CountType(rights, lefts[|lefts| - 1].wanType)
  }

  // ---------------------------------------------------------------------------
  // Lemmas

  lemma {:induction false} RowMembership(site1: string, left: WanInterface, site2: string,
                                         rights: seq<WanInterface>, r: LinkRequest)
    ensures r in Row(site1, left, site2, rights) <==>
            exists j :: 0 <= j < |rights| && left.wanType == rights[j].wanType &&
                        r == LinkRequest(site1, left.id, site2, rights[j].id)
    decreases |rights|
  {
    if rights != [] {
      var init := rights[..|rights| - 1];
      RowMembership(site1, left, site2, init, r);
      assert forall j :: 0 <= j < |init| ==> init[j] == rights[j];
    }
  }

  /** A request is issued iff it joins a left and a right interface of equal type. */
  lemma {:induction false} WanPairsMembership(site1: string, lefts: seq<WanInterface>, site2: string,
                                              rights: seq<WanInterface>, r: LinkRequest)
    ensures r in WanPairs(site1, lefts, site2, rights) <==>
            exists i, j :: 0 <= i < |lefts| && 0 <= j < |rights| && lefts[i].wanType == rights[j].wanType &&
                           r == LinkRequest(site1, lefts[i].id, site2, rights[j].id)
    decreases |lefts|
  {
    if lefts != [] {
      var init := lefts[..|lefts| - 1];
      var left := lefts[|lefts| - 1];
      WanPairsMembership(site1, init, site2, rights, r);
      RowMembership(site1, left, site2, rights, r);
      assert forall i :: 0 <= i < |init| ==> init[i] == lefts[i];
      if exists i, j :: 0 <= i < |lefts| && 0 <= j < |rights| && lefts[i].wanType == rights[j].wanType &&
                        r == LinkRequest(site1, lefts[i].id, site2, rights[j].id) {
        var i, j :| 0 <= i < |lefts| && 0 <= j < |rights| && lefts[i].wanType == rights[j].wanType &&
                    r == LinkRequest(site1, lefts[i].id, site2, rights[j].id);
        if i < |init| {
          assert init[i] == lefts[i];
        }
      }
    }
  }

  lemma {:induction false} RowLength(site1: string, left: WanInterface, site2: string, rights: seq<WanInterface>)
    ensures |Row(site1, left, site2, rights)| == CountType(rights, left.wanType)
    decreases |rights|
  {
    if rights != [] {
      RowLength(site1, left, site2, rights[..|rights| - 1]);
    }
  }

  /** Exactly one request per pair of equal type. */
  lemma {:induction false} WanPairsLength(site1: string, lefts: seq<WanInterface>, site2: string,
                                          rights: seq<WanInterface>)
    ensures |WanPairs(site1, lefts, site2, rights)| == MatchingPairs(lefts, rights)
    decreases |lefts|
  {
    if lefts != [] {
      WanPairsLength(site1, lefts[..|lefts| - 1], site2, rights);
      RowLength(site1, lefts[|lefts| - 1], site2, rights);
    }
  }

  lemma AttemptedSnoc(requests: seq<LinkRequest>, r: LinkRequest, post: LinkRequest -> bool)
    ensures Attempted(requests + [r], post) == Attempted(requests, post) + [Attempt(r, post(r))]
  {
  }

  // ---------------------------------------------------------------------------
  // The loop

  /** The double loop over both sites' WAN interfaces: one request per pair
      of equal type, each sent whatever became of the ones before it. */
  method MeshTwoSites(site1: string, site1Wans: seq<WanInterface>, site2: string, site2Wans: seq<WanInterface>,
                      post: LinkRequest -> bool)
    returns (attempts: seq<Attempt>)
    ensures attempts == Attempted(WanPairs(site1, site1Wans, site2, site2Wans), post)
    ensures |attempts| == MatchingPairs(site1Wans, site2Wans)
  {
    attempts := [];
    var i := 0;
    while i < |site1Wans|
      invariant 0 <= i <= |site1Wans|
      invariant attempts == Attempted(WanPairs(site1, site1Wans[..i], site2, site2Wans), post)
    {
      var left := site1Wans[i];
      ghost var done := WanPairs(site1, site1Wans[..i], site2, site2Wans);
      var j := 0;
      while j < |site2Wans|
        invariant 0 <= j <= |site2Wans|
        invariant attempts == Attempted(done + Row(site1, left, site2, site2Wans[..j]), post)
      {
        var right := site2Wans[j];
        if left.wanType == right.wanType {
          var request := LinkRequest(site1, left.id, site2, right.id);
          AttemptedSnoc(done + Row(site1, left, site2, site2Wans[..j]), request, post);
          attempts := attempts + [Attempt(request, post(request))];
        }
        assert site2Wans[..j + 1][..j] == site2Wans[..j];
        assert done + Row(site1, left, site2, site2Wans[..j + 1]) ==
               done + Row(site1, left, site2, site2Wans[..j]) +
               (if left.wanType == right.wanType then [LinkRequest(site1, left.id, site2, right.id)] else []);
        j := j + 1;
      }
      assert site2Wans[..j] == site2Wans;
      assert site1Wans[..i + 1][..i] == site1Wans[..i];
      i := i + 1;
    }
    assert site1Wans[..i] == site1Wans;
    WanPairsLength(site1, site1Wans, site2, site2Wans);
  }
}
