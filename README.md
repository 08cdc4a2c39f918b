# Conference paper manager: submission store, session store, admin decisions, dashboard gate

This project models, in Dafny, the decision logic of a client-side conference paper
manager. Four parts are modelled:

- **The submission store** (`submissions.dfy`, module `Submissions`). It holds two ordered collections, `papers` and
  `reviews`, in a class `Store`. The four mutations (`submitPaper`, `assignReviewer`,
  `submitReview`, `updatePaperStatus`) are methods that rebuild the collections. Each one is specified by
  a function giving the new collection from the old (`NewPaper`, `NewReview`,
  `WithStatus`, `WithDecision`). The five queries (`getPapersByAuthor`,
  `getPapersForReviewer`, `getAllPapers`, `getReviewsByPaper`, `getPaperById`) are
  functions of the collections. A paper's status is one of five labels,
  `submitted`, `under review` (with a space), `reviewed`, `accepted` and `rejected`. The store allows any label
  to follow any other. The class invariant is the id discipline: every new element takes
  id `length + 1`, so each element's id is its position + 1.
- **The session store** (`session.dfy`, module `Session`). It is a class `SessionStore` holding the
  credential list, the current identity, its role and an abstract slot for the copy kept
  in browser storage. `login` needs an exact (email, password, role) match. `register`
  refuses a duplicate email and otherwise appends an author. `logout` clears the identity.
- **The admin dashboard's decision logic** (`admin.dfy`, module `Admin`). It covers the review average used
  as the accept/reject score snapshot (0 with no reviews) and the per-status counts. It also covers which
  actions a paper's row offers in each status and the accepted papers ordered by final score.
- **The dashboard gate** (`layout.dfy`, module `Layout`). It takes (authenticated, role, required
  role) to a redirect to `/`, a redirect to the role's own dashboard, or rendering.

`list_ops.dfy` (module `ListOps`) gives the JavaScript array helpers the stores use
(`filter`, `map`, `find`, `some`) as functions on sequences, with their contracts, and
`Option` for `undefined`/`null`.

The stores' mutations are methods of classes. Their `ensures` tie the new fields to
functions of the old ones. The properties of those functions are proved as lemmas and as the
functions' own contracts.

Three behaviours of the code are worth stating plainly:

- The store has no forward-only guard. `assignReviewer` forces `under review` from any status,
  `submitReview` forces `reviewed`, and `updatePaperStatus` accepts any status. The model reproduces
  this. `Admin.OfferedActionsMoveForward` shows that only the dashboard's buttons move papers forward.
- `submitPaper` uses `papers.length + 1` as the new id. Under the id discipline this is one more than the
  largest id (`Submissions.NewPaperIdIsOneAboveMax`).
- `updatePaperStatus` without a final score overwrites `finalScore` with `undefined`. It does
  not keep the old value.

## Model

| member | source | states |
|---|---|---|
| `Submissions.ParseStatus` | src/contexts/DataContext.tsx:12 | the five status strings (`under review` with a space) read back to exactly their status; any other string is no status |
| `Submissions.SeedIdsArePositions` | src/contexts/DataContext.tsx:41-71 | in the seed papers and reviews each id equals position + 1 |
| `Submissions.WithStatus` | src/contexts/DataContext.tsx:100-106 | the status map keeps the length; every paper with the id gets the new status whatever it had, with all other fields unchanged; every other paper is unchanged |
| `Submissions.WithDecision` | src/contexts/DataContext.tsx:141-146 | the decision map keeps the length; the matching paper gets both the given status and the given final score (none when omitted), other fields unchanged; every other paper is unchanged |
| `Submissions.WithStatusKeepsIds` | src/contexts/DataContext.tsx:102-106 | a status change keeps the id discipline, and an id no paper carries leaves the papers as they were |
| `Submissions.WithDecisionKeepsIds` | src/contexts/DataContext.tsx:142-146 | a decision keeps the id discipline, and an unknown id leaves the papers as they were |
| `Submissions.PapersByAuthor` | src/contexts/DataContext.tsx:155-157 | the result is a subsequence of the papers (store order), every element is the author's, and every paper of the author is in it as many times as in the store |
| `Submissions.ReviewsByPaper` | src/contexts/DataContext.tsx:179-181 | the result is a subsequence of the reviews, every element is about the paper, and every review of the paper is in it as many times as in the store |
| `Submissions.ReviewedPaperIds` | src/contexts/DataContext.tsx:162-164 | an id is listed exactly when the reviewer has a review of that paper |
| `Submissions.PapersForReviewer` | src/contexts/DataContext.tsx:160-171 | the result is a subsequence of the papers, and a paper is in it exactly when it is under review and the reviewer has no review of it, as many times as in the store |
| `Submissions.AllPapers` | src/contexts/DataContext.tsx:174-176 | the admin query returns the store's own papers, neither filtered nor reordered |
| `Submissions.PaperById` | src/contexts/DataContext.tsx:184-186 | a found paper is the first one in store order carrying the id; nothing is found exactly when no paper carries the id |
| `Submissions.NewPaperIdIsOneAboveMax` | src/contexts/DataContext.tsx:82 | under the id discipline the id `length + 1` given to a new paper exceeds every existing id and is one more than the last (largest) one |
| `ListOps.FilterCounts` | src/contexts/DataContext.tsx:156 | `filter` keeps each element satisfying the test exactly as many times as it occurs, and no other element |
| `Submissions.PaperByIdIsPosition` | src/contexts/DataContext.tsx:82 | under the id discipline, looking up id k gives the paper at position k - 1 when 1 <= k <= length, and nothing otherwise |
| `Submissions.ReviewedPaperLeavesEveryQueue` | src/contexts/DataContext.tsx:128-132 | after a review of paper p is submitted, p is on no reviewer's pending list |
| `Submissions.SubmittedReviewJoinsItsPaper` | src/contexts/DataContext.tsx:116-125 | the appended review is added at the end of its own paper's reviews and no other paper's reviews change |
| `Submissions.SeedPendingLists` | src/contexts/DataContext.tsx:41-71 | on the seed data reviewer 3 has nothing pending and every other reviewer has exactly paper 1 pending |
| `Submissions.SeedReviewExample` | src/contexts/DataContext.tsx:115-132 | on the seed data a review of paper 1 by reviewer 3 with score 7 gets id 2 and makes paper 1 `reviewed`, leaving paper 2 as it was |
| `Submissions.Store.constructor` | src/contexts/DataContext.tsx:76-77 | a new store holds the seed papers and reviews and satisfies the id discipline |
| `Submissions.Store.SubmitPaper` | src/contexts/DataContext.tsx:80-91 | exactly one paper is appended, with id old length + 1, status `submitted`, no final score and the given fields; earlier papers and all reviews are unchanged; the id discipline is kept |
| `Submissions.Store.AssignReviewer` | src/contexts/DataContext.tsx:100-106 | the papers become the status map to `under review` of the old papers, whatever the old status; the reviewer id has no effect; reviews unchanged; id discipline kept |
| `Submissions.Store.SubmitReview` | src/contexts/DataContext.tsx:115-132 | exactly one review is appended with id old review count + 1 and the given fields, and paper pid becomes `reviewed` however many reviews it had; id discipline kept |
| `Submissions.Store.UpdatePaperStatus` | src/contexts/DataContext.tsx:141-146 | the papers become the decision map of the old papers with the given status and final score; reviews unchanged; id discipline kept |
| `Session.FindAccount` | src/contexts/AuthContext.tsx:52-56 | an account is found exactly when one matches email, password and role, and it is the first such; a `null` role finds nothing |
| `Session.EmailTaken` | src/contexts/AuthContext.tsx:95 | true exactly when some stored account has the email |
| `Session.SeedAccountsWellFormed` | src/contexts/AuthContext.tsx:26-30 | the seeded accounts have distinct emails and ids equal to position + 1 |
| `Session.MatchIsFound` | src/contexts/AuthContext.tsx:52-56 | with distinct emails, the account matching the triple is exactly the one login finds |
| `Session.RegisterKeepsAccountsWellFormed` | src/contexts/AuthContext.tsx:95-115 | appending an author with a fresh email keeps emails distinct and ids at position + 1 |
| `Session.LoginAfterRegister` | src/contexts/AuthContext.tsx:106-115 | after a successful registration, logging in with that email, password and role `author` finds the new account, whose id is the old length + 1 |
| `Session.SessionStore.constructor` | src/contexts/AuthContext.tsx:37-44 | start-up holds the seeded accounts and the identity restored from storage, with its role |
| `Session.SessionStore.Login` | src/contexts/AuthContext.tsx:47-87 | succeeds exactly when some account matches the triple; on success the identity is the first match without its password, the role is its role and the persisted copy equals it; on failure identity, role and persisted copy are unchanged |
| `Session.SessionStore.Register` | src/contexts/AuthContext.tsx:90-123 | fails exactly when the email is already stored, leaving the accounts unchanged; otherwise appends one author with id old length + 1; never changes identity, role or persisted copy; emails stay distinct |
| `Session.SessionStore.Logout` | src/contexts/AuthContext.tsx:126-135 | identity, role and persisted copy are cleared and the session is no longer authenticated |
| `Admin.DecisionScore` | src/pages/AdminDashboard.tsx:58-61 | the snapshot score is exactly 0 with no reviews, and otherwise the value whose product with the review count is the score sum (the mean) |
| `Admin.ScoreSumBounds` | src/pages/AdminDashboard.tsx:60 | with every score in [lo, hi], the sum lies between count * lo and count * hi |
| `Admin.DecisionScoreWithinScoreRange` | src/pages/AdminDashboard.tsx:58-61 | with at least one review and every score in [lo, hi], the average lies in [lo, hi] |
| `Admin.AcceptPaper` | src/pages/AdminDashboard.tsx:57-64 | equals `updatePaperStatus(pid, accepted, average of pid's reviews)`; reviews unchanged |
| `Admin.RejectPaper` | src/pages/AdminDashboard.tsx:67-74 | equals `updatePaperStatus(pid, rejected, average of pid's reviews)`; reviews unchanged |
| `Admin.HandleAssignReviewer` | src/pages/AdminDashboard.tsx:49-54 | equals `assignReviewer(pid, 3)`: the paper becomes `under review` |
| `Admin.AcceptWithoutReviewsSnapshotsZero` | src/pages/AdminDashboard.tsx:57-64 | accepting seed paper 2, which has no reviews, records final score 0 |
| `Admin.CountStatusAppend` | src/pages/AdminDashboard.tsx:79-83 | appending a paper adds one to the count of its own status and leaves the other counts unchanged |
| `Admin.StatusCountsPartition` | src/pages/AdminDashboard.tsx:77-84 | the five status counts add up to the number of papers |
| `Admin.ComputeStats` | src/pages/AdminDashboard.tsx:77-84 | total is the number of papers, each count is the number of papers with that exact status, and the five counts sum to total |
| `Admin.SubmitRaisesSubmitted` | src/pages/AdminDashboard.tsx:77-84 | after a submission, total and the `submitted` count each rise by one and the other counts stay |
| `Admin.StatusChangeMovesOneCount` | src/pages/AdminDashboard.tsx:77-84 | under the id discipline, a status change on an existing paper takes one from its old status's count and adds one to the new status's count; other counts stay |
| `Admin.OfferedActions` | src/pages/AdminDashboard.tsx:184-229 | Assign is offered exactly for `submitted`, Reviews exactly for `under review` or `reviewed`, Accept and Reject exactly for `reviewed` |
| `Admin.OfferedActionsMoveForward` | src/pages/AdminDashboard.tsx:184-229 | every offered status-changing action moves the paper exactly one stage forward, and decided papers offer no action |
| `Admin.InsertByKey` | src/pages/AdminDashboard.tsx:307-311 | inserting into a non-increasing list gives a non-increasing list holding the same elements plus the new one |
| `Admin.SortByKey` | src/pages/AdminDashboard.tsx:307-311 | the sort by final score (missing counts as 0) is a permutation and is non-increasing |
| `Admin.Winners` | src/pages/AdminDashboard.tsx:305-311 | the winner list is a permutation of the accepted papers, holds exactly the accepted papers, and is non-increasing in final score |
| `Layout.Gate` | src/components/DashboardLayout.tsx:18-32 | unauthenticated goes to `/` whatever the required role; an authenticated user with a different role goes to that role's dashboard; absent or matching required role renders; an authenticated user with no role renders |
| `Layout.RedirectSettles` | src/components/DashboardLayout.tsx:24-32 | a redirect sends the user to their own role's dashboard, and that dashboard renders for them |
| `Layout.GateOnSession` | src/components/DashboardLayout.tsx:18-21 | after logout every dashboard redirects to `/`; a signed-in session renders its own role's dashboard |

## Left out

- Toast notifications: they are UI side effects with no bearing on state.
- The artificial `setTimeout` delays and the `async` wrappers. `login` and `register` are synchronous methods.
- The browser-storage JSON serialisation and the start-up restore effect. The session keeps an abstract
  `persisted` slot, and the constructor takes the restored identity as a parameter.
- The timestamps from the clock. `submittedAt` and `createdAt` are opaque string parameters.
- React's closure and re-render semantics. Each mutation is one atomic step on the current state.
- The credential list is shared by every session in the source (a module-level array). Here it is a field of
  the session store.
- Rendering, dialogs, badges, `toFixed(1)` formatting and the `N/A` display of an average.
- View-level form validation: empty fields, password confirmation, the PDF type check and the slider bounds.
  The store does not enforce them, so the model accepts any score. `Admin.DecisionScoreWithinScoreRange` takes the
  score range as a hypothesis.
- Review scores are integers and averages are exact `real`s. JavaScript floating-point rounding is not modelled.
- `Admin.SortByKey`: ties keep their original order (the sort inserts each paper ahead of equal keys,
  like the stable sort of current JavaScript engines), but stability is not stated in the contract.
- `Admin.Winners`: for the same reason, the order of accepted papers with equal final scores (store order
  in the source) is not stated; only the permutation and the non-increasing order are.
- The pages for authors, reviewers and the public winners list, the navigation bar and the home page are
  view glue and are not part of this model.
