/** The decision logic of the admin dashboard: the review average fed into
    accept/reject, the per-status counts, which actions each status offers, and the
    accepted papers ordered by final score. */
module Admin {
  import opened ListOps
  import opened Submissions

  /** The reviewer every "Assign" button assigns. */
  const AssignedReviewerId: int := 3

  // ---------------------------------------------------------------------------
  // Review average

  /** `reviews.reduce((sum, r) => sum + r.score, 0)`. */
  function ScoreSum(rs: seq<Review>): int
  {
    if |rs| == 0 then 0 else rs[0].score + ScoreSum(rs[1..])
  }

  /** The score snapshotted by accept/reject: the mean of the scores, and exactly 0
      when there are no reviews. */
  function DecisionScore(rs: seq<Review>): (avg: real)
    ensures |rs| == 0 ==> avg == 0.0
    ensures |rs| > 0 ==> avg * (|rs| as real) == ScoreSum(rs) as real
  {
    if |rs| > 0 then (ScoreSum(rs) as real) / (|rs| as real) else 0.0
  }

  lemma {:induction false} ScoreSumBounds(rs: seq<Review>, lo: int, hi: int)
    requires forall i :: 0 <= i < |rs| ==> lo <= rs[i].score <= hi
    ensures |rs| * lo <= ScoreSum(rs) <= |rs| * hi
  {
    if |rs| > 0 {
      ScoreSumBounds(rs[1..], lo, hi);
      assert |rs| * lo == lo + (|rs| - 1) * lo;
      assert |rs| * hi == hi + (|rs| - 1) * hi;
    }
  }

  /** When every score lies in [lo, hi], so does the average of a non-empty list. */
  lemma DecisionScoreWithinScoreRange(rs: seq<Review>, lo: int, hi: int)
    requires |rs| > 0
    requires forall i :: 0 <= i < |rs| ==> lo <= rs[i].score <= hi
    ensures lo as real <= DecisionScore(rs) <= hi as real
  {
    ScoreSumBounds(rs, lo, hi);
    var n := |rs| as real;
    var avg := DecisionScore(rs);
    assert avg * n == ScoreSum(rs) as real;
    assert (lo as real) * n <= avg * n <= (hi as real) * n;
  }

  // ---------------------------------------------------------------------------
  // Decisions: thin calls into the store

  /** `acceptPaper`: `updatePaperStatus(pid, 'accepted', average of its reviews)`. */
  method AcceptPaper(store: Store, pid: int)
    requires store.Valid()
    modifies store
    ensures store.Valid()
    ensures store.papers ==
            WithDecision(old(store.papers), pid, Accepted, Some(DecisionScore(ReviewsByPaper(old(store.reviews), pid))))
    ensures store.reviews == old(store.reviews)
  {
    var avg := DecisionScore(ReviewsByPaper(store.reviews, pid));
    store.UpdatePaperStatus(pid, Accepted, Some(avg));
  }

  /** `rejectPaper`: `updatePaperStatus(pid, 'rejected', average of its reviews)`. */
  method RejectPaper(store: Store, pid: int)
    requires store.Valid()
    modifies store
    ensures store.Valid()
    ensures store.papers ==
            WithDecision(old(store.papers), pid, Rejected, Some(DecisionScore(ReviewsByPaper(old(store.reviews), pid))))
    ensures store.reviews == old(store.reviews)
  {
    var avg := DecisionScore(ReviewsByPaper(store.reviews, pid));
    store.UpdatePaperStatus(pid, Rejected, Some(avg));
  }

  /** `handleAssignReviewer`: always assigns reviewer 3. */
  method HandleAssignReviewer(store: Store, pid: int)
    requires store.Valid()
    modifies store
    ensures store.Valid()
    ensures store.papers == WithStatus(old(store.papers), pid, UnderReview)
    ensures store.reviews == old(store.reviews)
  {
    store.AssignReviewer(pid, AssignedReviewerId);
  }

  /** Accepting seed paper 2, which has no reviews, snapshots a final score of 0. */
  lemma AcceptWithoutReviewsSnapshotsZero()
    ensures ReviewsByPaper(InitialReviews, 2) == []
    ensures WithDecision(InitialPapers, 2, Accepted, Some(DecisionScore(ReviewsByPaper(InitialReviews, 2))))[1]
            == InitialPapers[1].(status := Accepted, finalScore := Some(0.0))
  {
    FilterAllOrNone(InitialReviews, (v: Review) => v.paperId == 2);
  }

  // ---------------------------------------------------------------------------
  // Statistics

  datatype Stats = Stats(total: nat, submitted: nat, underReview: nat, reviewed: nat,
                         accepted: nat, rejected: nat)

  /** `papers.filter(p => p.status === st).length`. */
  function CountStatus(ps: seq<Paper>, st: Status): nat
  {
    |Filter(ps, (p: Paper) => p.status == st)|
  }

  /** A paper appended to the collection adds one to its own status's count only. */
  lemma CountStatusAppend(ps: seq<Paper>, p: Paper, st: Status)
    ensures CountStatus(ps + [p], st) == CountStatus(ps, st) + (if p.status == st then 1 else 0)
  {
    FilterAppend(ps, [p], (q: Paper) => q.status == st);
  }

  /** Every paper carries exactly one of the five statuses, so the counts add up. */
  lemma {:induction false} StatusCountsPartition(ps: seq<Paper>)
    ensures CountStatus(ps, Submitted) + CountStatus(ps, UnderReview) + CountStatus(ps, Reviewed)
            + CountStatus(ps, Accepted) + CountStatus(ps, Rejected) == |ps|
  {
    if |ps| > 0 {
      StatusCountsPartition(ps[1..]);
    }
  }

  /** The dashboard's `stats`. */
  function ComputeStats(ps: seq<Paper>): (s: Stats)
    ensures s.total == |ps|
    ensures s.submitted + s.underReview + s.reviewed + s.accepted + s.rejected == s.total
    ensures s.submitted == CountStatus(ps, Submitted) && s.underReview == CountStatus(ps, UnderReview)
    ensures s.reviewed == CountStatus(ps, Reviewed) && s.accepted == CountStatus(ps, Accepted)
    ensures s.rejected == CountStatus(ps, Rejected)
  {
    StatusCountsPartition(ps);
    Stats(|ps|, CountStatus(ps, Submitted), CountStatus(ps, UnderReview), CountStatus(ps, Reviewed),
          CountStatus(ps, Accepted), CountStatus(ps, Rejected))
  }

  /** Submitting a paper raises the total and the "submitted" count by one each. */
  lemma SubmitRaisesSubmitted(ps: seq<Paper>, userId: int, title: string, paperAbstract: string,
                              filename: string, at: string)
    ensures ComputeStats(ps + [NewPaper(ps, userId, title, paperAbstract, filename, at)]) ==
            ComputeStats(ps).(total := |ps| + 1, submitted := CountStatus(ps, Submitted) + 1)
  {
    var p := NewPaper(ps, userId, title, paperAbstract, filename, at);
    CountStatusAppend(ps, p, Submitted);
    CountStatusAppend(ps, p, UnderReview);
    CountStatusAppend(ps, p, Reviewed);
    CountStatusAppend(ps, p, Accepted);
    CountStatusAppend(ps, p, Rejected);
  }

  /** Under the id discipline, changing the status of an existing paper moves it from
      its old status's count to the new one's; every other count stays. */
  lemma StatusChangeMovesOneCount(ps: seq<Paper>, pid: int, st: Status, s: Status)
    requires PaperIdsArePositions(ps)
    requires 1 <= pid <= |ps|
    ensures CountStatus(WithStatus(ps, pid, st), s) ==
            CountStatus(ps, s) - (if ps[pid - 1].status == s then 1 else 0) + (if st == s then 1 else 0)
  {
    var k := pid - 1;
    var r := WithStatus(ps, pid, st);
    assert ps == ps[..k] + [ps[k]] + ps[k + 1..];
    assert r == ps[..k] + [ps[k].(status := st)] + ps[k + 1..];
    var f := (q: Paper) => q.status == s;
    FilterAppend(ps[..k] + [ps[k]], ps[k + 1..], f);
    FilterAppend(ps[..k], [ps[k]], f);
    FilterAppend(ps[..k] + [ps[k].(status := st)], ps[k + 1..], f);
    FilterAppend(ps[..k], [ps[k].(status := st)], f);
  }

  // ---------------------------------------------------------------------------
  // Action guards

  datatype Action = Assign | ViewReviews | Accept | Reject

  /** The buttons a paper's row shows, by status. */
  function OfferedActions(st: Status): (a: set<Action>)
    ensures Assign in a <==> st == Submitted
    ensures ViewReviews in a <==> st == UnderReview || st == Reviewed
    ensures Accept in a <==> st == Reviewed
    ensures Reject in a <==> st == Reviewed
  {
    (if st == Submitted then {Assign} else {})
    + (if st == UnderReview || st == Reviewed then {ViewReviews} else {})
    + (if st == Reviewed then {Accept, Reject} else {})
  }

  /** Position of a status along submitted, under review, reviewed, decided. */
  function Stage(st: Status): nat
  {
    match st
    case Submitted => 0
    case UnderReview => 1
    case Reviewed => 2
    case Accepted => 3
    case Rejected => 3
  }

  /** The status an action's handler gives the paper, if it changes one. */
  function Effect(a: Action): Option<Status>
  {
    match a
    case Assign => Some(UnderReview)
    case ViewReviews => None
    case Accept => Some(Accepted)
    case Reject => Some(Rejected)
  }

  /** The store accepts any status change, but the dashboard only offers changes that
      move a paper one stage forward, and nothing once it is decided. */
  lemma OfferedActionsMoveForward(st: Status, a: Action)
    requires a in OfferedActions(st)
    ensures Effect(a).Some? ==> Stage(Effect(a).value) == Stage(st) + 1
    ensures Stage(st) < 3
  {
  }

  // ---------------------------------------------------------------------------
  // Winner list

  /** `a.finalScore || 0`: a missing score sorts as 0. */
  function SortKey(p: Paper): real
  {
    match p.finalScore
    case Some(v) => v
    case None => 0.0
  }

  ghost predicate NonIncreasing(ps: seq<Paper>)
  {
    forall i, j :: 0 <= i < j < |ps| ==> SortKey(ps[i]) >= SortKey(ps[j])
  }

  /** Places `p` before the first element whose key is not above its own. */
  function InsertByKey(p: Paper, ps: seq<Paper>): (r: seq<Paper>)
    ensures multiset(r) == multiset(ps) + multiset{p}
    ensures |r| == |ps| + 1 && (r[0] == p || (|ps| > 0 && r[0] == ps[0]))
    ensures NonIncreasing(ps) ==> NonIncreasing(r)
  {
    if |ps| == 0 then [p]
    else if SortKey(ps[0]) <= SortKey(p) then [p] + ps
    else
      assert ps == [ps[0]] + ps[1..];
      [ps[0]] + InsertByKey(p, ps[1..])
  }

  /** `sort((a, b) => (b.finalScore || 0) - (a.finalScore || 0))`: a stable sort by
      non-increasing key. */
  function SortByKey(ps: seq<Paper>): (r: seq<Paper>)
    ensures multiset(r) == multiset(ps)
    ensures NonIncreasing(r)
  {
    if |ps| == 0 then []
    else
      assert ps == [ps[0]] + ps[1..];
      InsertByKey(ps[0], SortByKey(ps[1..]))
  }

  /** The "Accepted Papers" list of the winner dialog: exactly the accepted papers,
      each as often as in the store, ordered by non-increasing final score. */
  function Winners(ps: seq<Paper>): (w: seq<Paper>)
    ensures multiset(w) == multiset(Filter(ps, (p: Paper) => p.status == Accepted))
    ensures forall p :: p in w <==> p in ps && p.status == Accepted
    ensures NonIncreasing(w)
  {
    var accepted := Filter(ps, (p: Paper) => p.status == Accepted);
    var w := SortByKey(accepted);
    assert forall p :: p in w <==> p in accepted by {
      forall p ensures p in w <==> p in accepted {
        assert p in w <==> p in multiset(w);
        assert p in accepted <==> p in multiset(accepted);
      }
    }
    w
  }
}
