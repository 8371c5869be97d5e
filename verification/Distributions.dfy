/** The score distributions of a suite: grouped by submission, ordered by mean. */
module Distributions {
  import opened Tables
  import opened Protocol
  import opened History
  import opened Scoring
  import opened Sums
  import opened Sorting
  import opened Choice

  datatype Submission = Submission(name: string, submitter: string, createdAt: Time)

  type Submissions = map<int, Submission>

  datatype Distribution = Distribution(
    submissionId: int, name: string, submitter: string, submittedAt: Time, scores: seq<real>)

  /** An entry whose mean is a number. */
  type Scored = d: Distribution | d.scores != [] witness Distribution(0, "", "", 0, [0.0])

  // ------------------------------------------------------------- what to group

  predicate Selects(r: Run, suite: int) {
    r.suite == suite && r.status == Succeeded && r.score.Some?
  }

  function SelectedIds(runs: Runs, suite: int, submission: int): set<int> {
    set id | id in runs && Selects(runs[id], suite) && runs[id].submission == submission
  }

  /** The submissions that have something to show. */
  function Contributors(runs: Runs, subs: Submissions, suite: int): set<int> {
    set id | id in runs && Selects(runs[id], suite) && runs[id].submission in subs :: runs[id].submission
  }

  ghost predicate AllScored(runs: Runs, ids: set<int>) {
    forall id | id in ids :: id in runs && runs[id].score.Some?
  }

  /** The scores of the given runs, each as often as it was scored. */
  ghost function Bag(runs: Runs, ids: set<int>): multiset<real>
    requires AllScored(runs, ids)
  {
    if ids == {} then multiset{}
    else
      var id := Pick(ids);
      Bag(runs, ids - {id}) + multiset{runs[id].score.value}
  }

  lemma {:induction false} BagSplit(runs: Runs, ids: set<int>, id: int)
    requires AllScored(runs, ids) && id in ids
    ensures Bag(runs, ids) == Bag(runs, ids - {id}) + multiset{runs[id].score.value}
    decreases |ids|
  {
    var p := Pick(ids);
    if p != id {
      BagSplit(runs, ids - {p}, id);
      BagSplit(runs, ids - {id}, p);
      assert ids - {p} - {id} == ids - {id} - {p};
    }
  }

  /** More runs and the same rows: at least the same scores. */
  lemma {:induction false} BagGrows(runs: Runs, ids: set<int>, runs': Runs, ids': set<int>)
    requires AllScored(runs, ids) && AllScored(runs', ids') && ids <= ids'
    requires forall id | id in ids :: runs'[id] == runs[id]
    ensures Bag(runs, ids) <= Bag(runs', ids') && |Bag(runs, ids)| == |ids|
    decreases |ids|
  {
    if ids != {} {
      var id := Pick(ids);
      BagSplit(runs', ids', id);
      BagGrows(runs, ids - {id}, runs', ids' - {id});
    }
  }

  // ---------------------------------------------------------------- the order

  /** The comparator: higher mean first, then the earlier submission. */
  predicate Less(a: Scored, b: Scored) {
    var (mi, mj) := (MeanOf(a.scores), MeanOf(b.scores));
    if mi != mj then mi > mj else a.submittedAt < b.submittedAt
  }

  function NotAfter(): (Scored, Scored) -> bool {
    (a: Scored, b: Scored) => !Less(b, a)
  }

  /** With no empty entry the comparator is a strict weak order, as the sort requires. */
  lemma LessIsStrictWeak()
    ensures TotalPreorder(NotAfter())
  {
    var leq := NotAfter();
    forall a: Scored, b: Scored ensures leq(a, b) || leq(b, a) {
      assert !Less(b, a) || !Less(a, b);
    }
    forall a: Scored, b: Scored, c: Scored | leq(a, b) && leq(b, c) ensures leq(a, c) {
      assert !Less(b, a) && !Less(c, b);
    }
  }

  // ------------------------------------------------------------- the endpoint

  ghost predicate Describes(d: Distribution, runs: Runs, subs: Submissions, suite: int) {
    d.submissionId in subs &&
    d.name == subs[d.submissionId].name && d.submitter == subs[d.submissionId].submitter &&
    d.submittedAt == subs[d.submissionId].createdAt &&
    multiset(d.scores) == Bag(runs, SelectedIds(runs, suite, d.submissionId))
  }

  /** One entry for each contributor, with exactly its scores, best mean first. */
  ghost predicate IsReport(out: seq<Scored>, runs: Runs, subs: Submissions, suite: int) {
    (forall d | d in out :: Describes(d, runs, subs, suite)) &&
    |out| == |Contributors(runs, subs, suite)| &&
    (forall s | s in Contributors(runs, subs, suite) :: exists d :: d in out && d.submissionId == s) &&
    SortedBy(NotAfter(), out)
  }

  method GetDistributions(suites: set<int>, runs: Runs, subs: Submissions, suite: int)
    returns (out: Option<seq<Scored>>)
    ensures out.None? <==> suite !in suites
    ensures out.Some? ==> IsReport(out.value, runs, subs, suite)
    ensures out.Some? ==> forall i, j | 0 <= i < j < |out.value| ::
      var (a, b) := (out.value[i], out.value[j]);
      var (mean, next) := (Sum(a.scores) / |a.scores| as real, Sum(b.scores) / |b.scores| as real);
      mean > next || (mean == next && a.submittedAt <= b.submittedAt)
  {
    if suite !in suites {
      return None;
    }
    var byID := Group(runs, subs, suite);
    var list := Flatten(byID);
    LessIsStrictWeak();
    var sorted := Sort(list, NotAfter());
    Rearranged(list, sorted);
    assert forall i, j | 0 <= i < j < |sorted| :: NotAfter()(sorted[i], sorted[j]);
    return Some(sorted);
  }

  lemma Rearranged(s: seq<Scored>, t: seq<Scored>)
    requires multiset(s) == multiset(t)
    ensures |s| == |t| && forall d :: d in s <==> d in t
  {
    assert |s| == |multiset(s)| == |multiset(t)| == |t|;
    assert forall d :: d in s <==> d in multiset(s);
  }

  /** The rows, in the order the database yields them, poured into one bucket per submission. */
  method Group(runs: Runs, subs: Submissions, suite: int) returns (byID: map<int, Scored>)
    ensures byID.Keys == Contributors(runs, subs, suite)
    ensures forall s | s in byID :: byID[s].submissionId == s && Describes(byID[s], runs, subs, suite)
  {
    byID := map[];
    var todo := set id | id in runs && Selects(runs[id], suite);
    while todo != {}
      invariant Grouped(byID, runs, subs, suite, todo)
      decreases |todo|
    {
      var id := Any(todo);
      var r := runs[id];
      var sid := r.submission;
      PouringKeeps(byID, runs, subs, suite, todo, id);
      if sid in subs {
        var dist := Distribution(sid, subs[sid].name, subs[sid].submitter, subs[sid].createdAt, []);
        if sid in byID {
          dist := byID[sid];
        }
        byID := byID[sid := dist.(scores := dist.scores + [r.score.value])];
      }
      todo := todo - {id};
    }
    AllPoured(byID, runs, subs, suite);
  }

  /** The buckets so far, when the runs in todo are still to come. */
  ghost predicate Grouped(byID: map<int, Scored>, runs: Runs, subs: Submissions, suite: int, todo: set<int>) {
    var all := set id | id in runs && Selects(runs[id], suite);
    todo <= all && byID.Keys == Seen(runs, subs, all - todo) &&
    forall s | s in byID :: Bucket(byID[s], runs, subs, suite, s, todo)
  }

  lemma AllPoured(byID: map<int, Scored>, runs: Runs, subs: Submissions, suite: int)
    requires Grouped(byID, runs, subs, suite, {})
    ensures byID.Keys == Contributors(runs, subs, suite)
    ensures forall s | s in byID :: byID[s].submissionId == s && Describes(byID[s], runs, subs, suite)
  {
    forall s | s in byID ensures Describes(byID[s], runs, subs, suite) {
      assert Bucket(byID[s], runs, subs, suite, s, {});
      assert SelectedIds(runs, suite, s) - {} == SelectedIds(runs, suite, s);
    }
  }

  function NewBucket(subs: Submissions, s: int): Distribution
    requires s in subs
  {
    Distribution(s, subs[s].name, subs[s].submitter, subs[s].createdAt, [])
  }

  /** The buckets after one more run. */
  function Poured(byID: map<int, Scored>, runs: Runs, subs: Submissions, id: int): map<int, Scored>
    requires id in runs && runs[id].score.Some?
  {
    var s := runs[id].submission;
    if s !in subs then byID
    else
      var dist := if s in byID then byID[s] else NewBucket(subs, s);
      byID[s := dist.(scores := dist.scores + [runs[id].score.value])]
  }

  lemma PouredKeys(byID: map<int, Scored>, runs: Runs, subs: Submissions, suite: int, todo: set<int>, id: int)
    requires Grouped(byID, runs, subs, suite, todo) && id in todo
    ensures var all := set id | id in runs && Selects(runs[id], suite);
      Poured(byID, runs, subs, id).Keys == Seen(runs, subs, all - (todo - {id}))
  {
    var all := set id | id in runs && Selects(runs[id], suite);
    SeenMore(runs, subs, all - todo, id);
    assert all - todo + {id} == all - (todo - {id});
  }

  lemma PouredBucket(byID: map<int, Scored>, runs: Runs, subs: Submissions, suite: int, todo: set<int>, id: int)
    requires Grouped(byID, runs, subs, suite, todo) && id in todo && runs[id].submission in subs
    ensures var s := runs[id].submission;
      Bucket(Poured(byID, runs, subs, id)[s], runs, subs, suite, s, todo - {id})
  {
    var s := runs[id].submission;
    if s !in byID {
      NoneSeen(runs, subs, suite, (set i | i in runs && Selects(runs[i], suite)), todo, s);
    }
    Pour(if s in byID then byID[s] else NewBucket(subs, s), runs, subs, suite, todo, id);
  }

  lemma PouringKeeps(byID: map<int, Scored>, runs: Runs, subs: Submissions, suite: int, todo: set<int>, id: int)
    requires Grouped(byID, runs, subs, suite, todo) && id in todo
    ensures Grouped(Poured(byID, runs, subs, id), runs, subs, suite, todo - {id})
  {
    PouredKeys(byID, runs, subs, suite, todo, id);
    Elsewhere(byID, runs, subs, suite, todo, id);
    if runs[id].submission in subs {
      PouredBucket(byID, runs, subs, suite, todo, id);
    } else {
      assert forall s | s in byID :: s != runs[id].submission;
    }
  }

  /** The submissions among the runs seen so far. */
  function Seen(runs: Runs, subs: Submissions, ids: set<int>): set<int>
    requires ids <= runs.Keys
  {
    set id | id in ids && runs[id].submission in subs :: runs[id].submission
  }

  lemma SeenMore(runs: Runs, subs: Submissions, ids: set<int>, id: int)
    requires ids <= runs.Keys && id in runs
    ensures Seen(runs, subs, ids + {id}) ==
            Seen(runs, subs, ids) + if runs[id].submission in subs then {runs[id].submission} else {}
  {
  }

  /** Bucket s, when the runs in todo are still to come. */
  ghost predicate Bucket(d: Distribution, runs: Runs, subs: Submissions, suite: int, s: int, todo: set<int>) {
    s in subs && d.submissionId == s && d.name == subs[s].name && d.submitter == subs[s].submitter &&
    d.submittedAt == subs[s].createdAt && multiset(d.scores) == Bag(runs, SelectedIds(runs, suite, s) - todo)
  }

  lemma NoneSeen(runs: Runs, subs: Submissions, suite: int, all: set<int>, todo: set<int>, s: int)
    requires all == set id | id in runs && Selects(runs[id], suite)
    requires s in subs && s !in Seen(runs, subs, all - todo)
    ensures SelectedIds(runs, suite, s) - todo == {}
  {
    assert forall id | id in all - todo && runs[id].submission in subs ::
        runs[id].submission in Seen(runs, subs, all - todo);
  }

  lemma Pour(d: Distribution, runs: Runs, subs: Submissions, suite: int, todo: set<int>, id: int)
    requires id in todo && id in runs && Selects(runs[id], suite)
    requires Bucket(d, runs, subs, suite, runs[id].submission, todo)
    ensures Bucket(d.(scores := d.scores + [runs[id].score.value]), runs, subs, suite, runs[id].submission, todo - {id})
  {
    var ids := SelectedIds(runs, suite, runs[id].submission);
    BagSplit(runs, ids - (todo - {id}), id);
    assert ids - (todo - {id}) - {id} == ids - todo;
  }

  /** A run leaves the buckets of all other submissions alone. */
  lemma Elsewhere(byID: map<int, Scored>, runs: Runs, subs: Submissions, suite: int, todo: set<int>, id: int)
    requires id in todo && id in runs && forall s | s in byID :: Bucket(byID[s], runs, subs, suite, s, todo)
    ensures forall s | s in byID && s != runs[id].submission :: Bucket(byID[s], runs, subs, suite, s, todo - {id})
  {
    forall s | s in byID && s != runs[id].submission
      ensures Bucket(byID[s], runs, subs, suite, s, todo - {id})
    {
      assert SelectedIds(runs, suite, s) - (todo - {id}) == SelectedIds(runs, suite, s) - todo;
    }
  }

  /** The buckets, in the order the map yields them. */
  method Flatten(byID: map<int, Scored>) returns (list: seq<Scored>)
    requires forall s | s in byID :: byID[s].submissionId == s
    ensures |list| == |byID.Keys|
    ensures forall d :: d in list <==> d.submissionId in byID && byID[d.submissionId] == d
  {
    list := [];
    var keys := byID.Keys;
    while keys != {}
      invariant keys <= byID.Keys && |list| + |keys| == |byID.Keys|
      invariant forall d :: d in list <==> d.submissionId in byID.Keys - keys && byID[d.submissionId] == d
      decreases |keys|
    {
      var k := Any(keys);
      list := list + [byID[k]];
      keys := keys - {k};
    }
  }

  // ------------------------------------------------------------------- growth

  /** In any run of the server, a submission's scores are only ever added to. */
  lemma DistributionsOnlyGrow(b: Behavior, i: nat, j: nat, suite: int, submission: int)
    requires IsBehavior(b) && i <= j < |b.states|
    ensures SelectedIds(b.states[i].runs, suite, submission) <= SelectedIds(b.states[j].runs, suite, submission)
    ensures Bag(b.states[i].runs, SelectedIds(b.states[i].runs, suite, submission))
         <= Bag(b.states[j].runs, SelectedIds(b.states[j].runs, suite, submission))
  {
    var was, now := SelectedIds(b.states[i].runs, suite, submission), SelectedIds(b.states[j].runs, suite, submission);
    forall id | id in was ensures id in now && b.states[j].runs[id] == b.states[i].runs[id] {
      EndIsFinal(b, i, j, id);
    }
    BagGrows(b.states[i].runs, was, b.states[j].runs, now);
  }

  /** Every scored success of the suite is one score of its own submission, and of no other. */
  lemma EachRunCountsOnce(runs: Runs, suite: int, id: int, submission: int)
    requires id in runs
    ensures id in SelectedIds(runs, suite, submission) <==>
            runs[id].suite == suite && runs[id].status == Succeeded && runs[id].score.Some? &&
            runs[id].submission == submission
    ensures |Bag(runs, SelectedIds(runs, suite, submission))| == |SelectedIds(runs, suite, submission)|
  {
    var ids := SelectedIds(runs, suite, submission);
    BagGrows(runs, ids, runs, ids);
  }
}
