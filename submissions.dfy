/** The submission store: the ordered `papers` and `reviews` collections, the four
    mutations that rebuild them and the five queries over them. */
module Submissions {
  import opened ListOps

  /** A paper's lifecycle label. The store itself allows any label to follow any other. */
  datatype Status = Submitted | UnderReview | Reviewed | Accepted | Rejected

  datatype Paper = Paper(
    id: int,
    userId: int,
    title: string,
    paperAbstract: string,
    filename: string,
    status: Status,
    finalScore: Option<real>,  // `undefined` until a decision snapshots a score
    submittedAt: string)       // an opaque timestamp

  datatype Review = Review(
    id: int,
    paperId: int,
    reviewerId: int,
    score: int,
    comments: string,
    createdAt: string)

  /** The exact status strings of the store; note the space in "under review". */
  function StatusLabel(st: Status): string
  {
    match st
    case Submitted => "submitted"
    case UnderReview => "under review"
    case Reviewed => "reviewed"
    case Accepted => "accepted"
    case Rejected => "rejected"
  }

  /** Reads a status string back; anything but the five labels is not a status. */
  function ParseStatus(s: string): (r: Option<Status>)
    ensures r.Some? ==> StatusLabel(r.value) == s
    ensures forall st: Status :: s == StatusLabel(st) ==> r == Some(st)
  {
    if s == "submitted" then Some(Submitted)
    else if s == "under review" then Some(UnderReview)
    else if s == "reviewed" then Some(Reviewed)
    else if s == "accepted" then Some(Accepted)
    else if s == "rejected" then Some(Rejected)
    else None
  }

  // ---------------------------------------------------------------------------
  // Seed data

  const InitialPapers: seq<Paper> := [
    Paper(1, 2, "Advances in Machine Learning",
          "This paper explores recent advances in machine learning techniques and their applications.",
          "advances_ml.pdf", UnderReview, None, "2025-04-15T10:30:00Z"),
    Paper(2, 2, "Blockchain in Healthcare",
          "An analysis of blockchain applications in the healthcare industry.",
          "blockchain_healthcare.pdf", Submitted, None, "2025-04-18T14:45:00Z")
  ]

  const InitialReviews: seq<Review> := [
    Review(1, 1, 3, 7, "Good research, but needs more experimental data to support conclusions.",
           "2025-04-19T09:15:00Z")
  ]

  // ---------------------------------------------------------------------------
  // Id discipline: every new element gets id `length + 1`, so ids are positions + 1.

  ghost predicate PaperIdsArePositions(ps: seq<Paper>)
  {
    forall i :: 0 <= i < |ps| ==> ps[i].id == i + 1
  }

  ghost predicate ReviewIdsArePositions(rs: seq<Review>)
  {
    forall i :: 0 <= i < |rs| ==> rs[i].id == i + 1
  }

  lemma SeedIdsArePositions()
    ensures PaperIdsArePositions(InitialPapers) && ReviewIdsArePositions(InitialReviews)
  {
  }

  // ---------------------------------------------------------------------------
  // The new state of each mutation, as a function of the old state

  /** The record `submitPaper` appends: id is the old length + 1, status "submitted",
      no final score. */
  function NewPaper(ps: seq<Paper>, userId: int, title: string, paperAbstract: string,
                    filename: string, submittedAt: string): Paper
  {
    Paper(|ps| + 1, userId, title, paperAbstract, filename, Submitted, None, submittedAt)
  }

  /** The record `submitReview` appends: id is the old review count + 1. */
  function NewReview(rs: seq<Review>, paperId: int, reviewerId: int, score: int,
                     comments: string, createdAt: string): Review
  {
    Review(|rs| + 1, paperId, reviewerId, score, comments, createdAt)
  }

  /** `papers.map(p => p.id === pid ? {...p, status: st} : p)`: every paper with id `pid`
      takes status `st` whatever it had; every other paper is kept as it was. */
  function WithStatus(ps: seq<Paper>, pid: int, st: Status): (r: seq<Paper>)
    ensures |r| == |ps|
    ensures forall i :: 0 <= i < |ps| && ps[i].id != pid ==> r[i] == ps[i]
    ensures forall i :: 0 <= i < |ps| && ps[i].id == pid ==> r[i] == ps[i].(status := st)
  {
    if |ps| == 0 then []
    else [if ps[0].id == pid then ps[0].(status := st) else ps[0]] + WithStatus(ps[1..], pid, st)
  }

  /** `papers.map(p => p.id === pid ? {...p, status: st, finalScore: fs} : p)`: both fields
      are overwritten on the matching paper, `finalScore` becoming `undefined` when `fs` is. */
  function WithDecision(ps: seq<Paper>, pid: int, st: Status, fs: Option<real>): (r: seq<Paper>)
    ensures |r| == |ps|
    ensures forall i :: 0 <= i < |ps| && ps[i].id != pid ==> r[i] == ps[i]
    ensures forall i :: 0 <= i < |ps| && ps[i].id == pid ==> r[i] == ps[i].(status := st, finalScore := fs)
  {
    if |ps| == 0 then []
    else [if ps[0].id == pid then ps[0].(status := st, finalScore := fs) else ps[0]]
         + WithDecision(ps[1..], pid, st, fs)
  }

  /** A status change keeps the id of every paper, so it keeps the id discipline;
      an id no paper carries leaves the collection as it was. */
  lemma WithStatusKeepsIds(ps: seq<Paper>, pid: int, st: Status)
    ensures PaperIdsArePositions(ps) ==> PaperIdsArePositions(WithStatus(ps, pid, st))
    ensures (forall i :: 0 <= i < |ps| ==> ps[i].id != pid) ==> WithStatus(ps, pid, st) == ps
  {
  }

  lemma WithDecisionKeepsIds(ps: seq<Paper>, pid: int, st: Status, fs: Option<real>)
    ensures PaperIdsArePositions(ps) ==> PaperIdsArePositions(WithDecision(ps, pid, st, fs))
    ensures (forall i :: 0 <= i < |ps| ==> ps[i].id != pid) ==> WithDecision(ps, pid, st, fs) == ps
  {
  }

  /** Under the id discipline, the id `submitPaper` gives (`length + 1`) is one more
      than the largest id in the store, and so differs from every existing id. */
  lemma NewPaperIdIsOneAboveMax(ps: seq<Paper>, userId: int, title: string, paperAbstract: string,
                                filename: string, at: string)
    requires PaperIdsArePositions(ps)
    ensures forall p :: p in ps ==> p.id < NewPaper(ps, userId, title, paperAbstract, filename, at).id
    ensures |ps| > 0 ==> ps[|ps| - 1].id + 1 == NewPaper(ps, userId, title, paperAbstract, filename, at).id
  {
  }

  // ---------------------------------------------------------------------------
  // Queries

  /** `getPapersByAuthor`: the author's papers, in store order, and all of them. */
  function PapersByAuthor(ps: seq<Paper>, authorId: int): (r: seq<Paper>)
    ensures IsSubsequence(r, ps)
    ensures forall p :: p in r ==> p.userId == authorId
    ensures forall p :: p in ps && p.userId == authorId ==> p in r
    ensures forall p :: multiset(r)[p] == if p.userId == authorId then multiset(ps)[p] else 0
  {
    FilterCounts(ps, (p: Paper) => p.userId == authorId);
    Filter(ps, (p: Paper) => p.userId == authorId)
  }

  /** `getReviewsByPaper`: the reviews of one paper, in store order, and all of them. */
  function ReviewsByPaper(rs: seq<Review>, paperId: int): (r: seq<Review>)
    ensures IsSubsequence(r, rs)
    ensures forall v :: v in r ==> v.paperId == paperId
    ensures forall v :: v in rs && v.paperId == paperId ==> v in r
    ensures forall v :: multiset(r)[v] == if v.paperId == paperId then multiset(rs)[v] else 0
  {
    FilterCounts(rs, (v: Review) => v.paperId == paperId);
    Filter(rs, (v: Review) => v.paperId == paperId)
  }

  /** Ids of the papers one reviewer has already reviewed. */
  function ReviewedPaperIds(rs: seq<Review>, reviewerId: int): (ids: seq<int>)
    ensures forall k :: k in ids <==> exists v :: v in rs && v.reviewerId == reviewerId && v.paperId == k
  {
    var mine := Filter(rs, (v: Review) => v.reviewerId == reviewerId);
    var ids := Map(mine, (v: Review) => v.paperId);
    assert forall k :: k in ids ==> exists v :: v in mine && v.paperId == k by {
      forall k | k in ids ensures exists v :: v in mine && v.paperId == k {
        var i :| 0 <= i < |ids| && ids[i] == k;
        assert mine[i] in mine;
      }
    }
    assert forall v :: v in mine ==> v.paperId in ids by {
      forall v | v in mine ensures v.paperId in ids {
        var i :| 0 <= i < |mine| && mine[i] == v;
        assert ids[i] == v.paperId;
      }
    }
    ids
  }

  /** True when the reviewer has a review on record for the paper. */
  predicate HasReviewed(rs: seq<Review>, reviewerId: int, paperId: int)
  {
    exists v :: v in rs && v.reviewerId == reviewerId && v.paperId == paperId
  }

  /** `getPapersForReviewer`: in store order, exactly the papers under review that this
      reviewer has not reviewed yet. */
  function PapersForReviewer(ps: seq<Paper>, rs: seq<Review>, reviewerId: int): (r: seq<Paper>)
    ensures IsSubsequence(r, ps)
    ensures forall p :: p in r <==>
              p in ps && p.status == UnderReview && !HasReviewed(rs, reviewerId, p.id)
    ensures forall p :: multiset(r)[p] ==
              if p.status == UnderReview && !HasReviewed(rs, reviewerId, p.id) then multiset(ps)[p] else 0
  {
    var done := ReviewedPaperIds(rs, reviewerId);
    FilterCounts(ps, (p: Paper) => p.status == UnderReview && p.id !in done);
    Filter(ps, (p: Paper) => p.status == UnderReview && p.id !in done)
  }

  /** `getAllPapers`: the store's own collection, neither filtered nor reordered. */
  function AllPapers(ps: seq<Paper>): (r: seq<Paper>)
    ensures r == ps
  {
    ps
  }

  /** `getPaperById`: the first paper carrying the id, or `undefined`. */
  function PaperById(ps: seq<Paper>, pid: int): (r: Option<Paper>)
    ensures r.Some? ==> r.value in ps && r.value.id == pid
    ensures r.None? <==> forall p :: p in ps ==> p.id != pid
    ensures r.Some? ==> exists i :: 0 <= i < |ps| && ps[i] == r.value &&
                          forall j :: 0 <= j < i ==> ps[j].id != pid
  {
    Find(ps, (p: Paper) => p.id == pid)
  }

  /** Under the id discipline, ids are unique and the paper with id `k` sits at
      position `k - 1`; any other id finds nothing. */
  lemma PaperByIdIsPosition(ps: seq<Paper>, k: int)
    requires PaperIdsArePositions(ps)
    ensures PaperById(ps, k) == if 1 <= k <= |ps| then Some(ps[k - 1]) else None
  {

  }

  /** Once a review by `reviewerId` of paper `pid` is submitted, that paper is on no
      reviewer's pending list: its status has become "reviewed". */
  lemma ReviewedPaperLeavesEveryQueue(ps: seq<Paper>, rs: seq<Review>, pid: int, reviewerId: int,
                                      score: int, comments: string, at: string, anyone: int)
    ensures forall p ::
              (p in PapersForReviewer(WithStatus(ps, pid, Reviewed),
                                      rs + [NewReview(rs, pid, reviewerId, score, comments, at)], anyone))
              ==> p.id != pid
  {

  }

  /** A submitted review adds exactly one entry, at the end, to its paper's reviews
      and leaves every other paper's reviews as they were. */
  lemma SubmittedReviewJoinsItsPaper(rs: seq<Review>, pid: int, reviewerId: int, score: int,
                                     comments: string, at: string, q: int)
    ensures ReviewsByPaper(rs + [NewReview(rs, pid, reviewerId, score, comments, at)], q) ==
            ReviewsByPaper(rs, q) + (if q == pid then [NewReview(rs, pid, reviewerId, score, comments, at)] else [])
  {
    var v := NewReview(rs, pid, reviewerId, score, comments, at);
    FilterAppend(rs, [v], (w: Review) => w.paperId == q);
  }

  /** On the seed data, reviewer 3 has nothing pending (paper 1 is under review but
      already reviewed by them), while any other reviewer is offered paper 1 only. */
  lemma SeedPendingLists(other: int)
    requires other != 3
    ensures PapersForReviewer(InitialPapers, InitialReviews, 3) == []
    ensures PapersForReviewer(InitialPapers, InitialReviews, other) == [InitialPapers[0]]
  {

  }

  /** Submitting a review of seed paper 1 by reviewer 3 with score 7: the review gets
      id 2 and paper 1 becomes "reviewed", paper 2 staying as it was. */
  lemma SeedReviewExample(comments: string, at: string)
    ensures var rs := InitialReviews + [NewReview(InitialReviews, 1, 3, 7, comments, at)];
            |rs| == 2 && rs[1] == Review(2, 1, 3, 7, comments, at)
    ensures WithStatus(InitialPapers, 1, Reviewed) ==
            [InitialPapers[0].(status := Reviewed), InitialPapers[1]]
  {
  }

  // ---------------------------------------------------------------------------
  // The store

  class Store {
    var papers: seq<Paper>
    var reviews: seq<Review>

    ghost predicate Valid()
      reads this
    {
      PaperIdsArePositions(papers) && ReviewIdsArePositions(reviews)
    }

    /** A fresh store holds the seed data. */
    constructor ()
      ensures Valid()
      ensures papers == InitialPapers && reviews == InitialReviews
    {
      papers := InitialPapers;
      reviews := InitialReviews;
      SeedIdsArePositions();
    }

    /** `submitPaper`: appends one "submitted" paper with id = old length + 1. */
    method SubmitPaper(userId: int, title: string, paperAbstract: string, filename: string,
                       submittedAt: string)
      requires Valid()
      modifies this
      ensures Valid()
      ensures papers == old(papers) + [NewPaper(old(papers), userId, title, paperAbstract, filename, submittedAt)]
      ensures reviews == old(reviews)
    {
      papers := papers + [NewPaper(papers, userId, title, paperAbstract, filename, submittedAt)];
    }

    /** `assignReviewer`: forces "under review" on paper `pid`, whatever its status;
        the reviewer id is not recorded anywhere. */
    method AssignReviewer(pid: int, reviewerId: int)
      requires Valid()
      modifies this
      ensures Valid()
      ensures papers == WithStatus(old(papers), pid, UnderReview)
      ensures reviews == old(reviews)
    {
      WithStatusKeepsIds(papers, pid, UnderReview);
      papers := WithStatus(papers, pid, UnderReview);
    }

    /** `submitReview`: appends one review with id = old review count + 1 and marks
        paper `pid` "reviewed", however many reviews it already had. */
    method SubmitReview(pid: int, reviewerId: int, score: int, comments: string, createdAt: string)
      requires Valid()
      modifies this
      ensures Valid()
      ensures reviews == old(reviews) + [NewReview(old(reviews), pid, reviewerId, score, comments, createdAt)]
      ensures papers == WithStatus(old(papers), pid, Reviewed)
    {
      reviews := reviews + [NewReview(reviews, pid, reviewerId, score, comments, createdAt)];
      WithStatusKeepsIds(papers, pid, Reviewed);
      papers := WithStatus(papers, pid, Reviewed);
    }

    /** `updatePaperStatus`: sets status and final score of paper `pid`, any status allowed. */
    method UpdatePaperStatus(pid: int, st: Status, finalScore: Option<real>)
      requires Valid()
      modifies this
      ensures Valid()
      ensures papers == WithDecision(old(papers), pid, st, finalScore)
      ensures reviews == old(reviews)
    {
      WithDecisionKeepsIds(papers, pid, st, finalScore);
      papers := WithDecision(papers, pid, st, finalScore);
    }
  }
}
