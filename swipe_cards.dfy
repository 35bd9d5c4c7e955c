/** The swipe session: the undecided jobs, a cursor into them, the visible
    window of at most three cards, and the two commit handlers that record
    the job at the cursor and advance the cursor.

    As written, a commit both removes the recorded job from the undecided
    list (it now has an application) and advances the cursor, so from an
    empty ledger the k-th commit records the job at index 2k of the original
    undecided list: every other job is passed over, and the window runs
    empty while half of the jobs are still undecided. `Commit` and the class
    below keep that behaviour; `CommitIntended` is the corrected step. */
module SwipeCards {
  import opened Types
  import opened JobContext
  import SwipeableCard

  /** `applications.map(app => app.jobId)` */
  function AppliedIds(apps: seq<Application>): (r: seq<string>)
    ensures |r| == |apps|
    ensures forall i :: 0 <= i < |apps| ==> r[i] == apps[i].jobId
  {
    seq(|apps|, i requires 0 <= i < |apps| => apps[i].jobId)
  }

  /** Some application, whatever its status, names this job id. */
  predicate Decided(apps: seq<Application>, jobId: string) {
    exists i :: 0 <= i < |apps| && apps[i].jobId == jobId
  }

  /** The undecided jobs, in catalogue order. */
  function AvailableJobs(jobs: seq<Job>, apps: seq<Application>): (r: seq<Job>)
    ensures |r| <= |jobs|
    ensures forall j :: j in r <==> j in jobs && !Decided(apps, j.id)
  {
    var ids := AppliedIds(apps);
    assert forall id :: id in ids <==> Decided(apps, id) by {
      forall id | id in ids ensures Decided(apps, id) {
        var i :| 0 <= i < |ids| && ids[i] == id;
        assert apps[i].jobId == id;
      }
    }
    Select(jobs, ids, false)
  }

  /** The undecided list keeps catalogue order and holds each catalogue entry
      that no application names, as often as the catalogue does, and nothing
      else. */
  lemma AvailableJobsSpec(jobs: seq<Job>, apps: seq<Application>)
    ensures Subsequence(AvailableJobs(jobs, apps), jobs)
    ensures forall j :: multiset(AvailableJobs(jobs, apps))[j]
                        == if Decided(apps, j.id) then 0 else multiset(jobs)[j]
  {
    var ids := AppliedIds(apps);
    forall id ensures id in ids <==> Decided(apps, id) {
      if id in ids {
        var i :| 0 <= i < |ids| && ids[i] == id;
        assert apps[i].jobId == id;
      }
    }
    SelectSpec(jobs, ids, false);
  }

  function Min(a: int, b: int): int {
    if a < b then a else b
  }

  /** `availableJobs.slice(currentIndex, currentIndex + 3)`: the cards on
      screen, the top one first. */
  function VisibleJobs(jobs: seq<Job>, apps: seq<Application>, currentIndex: nat): (r: seq<Job>)
    ensures |r| <= 3
    ensures r == [] <==> currentIndex >= |AvailableJobs(jobs, apps)|
    ensures currentIndex < |AvailableJobs(jobs, apps)| ==>
      |r| == Min(3, |AvailableJobs(jobs, apps)| - currentIndex)
    ensures forall i :: 0 <= i < |r| ==> r[i] == AvailableJobs(jobs, apps)[currentIndex + i]
  {
    var available := AvailableJobs(jobs, apps);
    if currentIndex >= |available| then []
    else available[currentIndex..Min(currentIndex + 3, |available|)]
  }

  /** What a swipe handler is given besides the current state: the status it
      records, and the clock readings that become the application's id and
      timestamp. */
  datatype Decision = Decision(status: Status, id: string, appliedAt: int)

  /** The session's state: the ledger and the cursor. */
  datatype Session = Session(applications: seq<Application>, currentIndex: nat)

  /** One commit as written: with the cursor inside the undecided list, the
      job at the cursor is recorded and the cursor advances; otherwise
      nothing changes. */
  function Commit(jobs: seq<Job>, s: Session, d: Decision): (r: Session)
    ensures s.currentIndex < |AvailableJobs(jobs, s.applications)| ==>
      r.currentIndex == s.currentIndex + 1
      && |r.applications| == |s.applications| + 1
      && r.applications[..|s.applications|] == s.applications
      && r.applications[|s.applications|].jobId == AvailableJobs(jobs, s.applications)[s.currentIndex].id
      && r.applications[|s.applications|].status == d.status
    ensures s.currentIndex >= |AvailableJobs(jobs, s.applications)| ==> r == s
  {
    var available := AvailableJobs(jobs, s.applications);
    if s.currentIndex < |available| then
      Session(s.applications + [NewApplication(available[s.currentIndex].id, d.status, d.id, d.appliedAt)],
              s.currentIndex + 1)
    else s
  }

  /** The state after a series of commits. */
  function Replay(jobs: seq<Job>, s: Session, ds: seq<Decision>): Session
    decreases |ds|
  {
    if ds == [] then s
    else Commit(jobs, Replay(jobs, s, ds[..|ds| - 1]), ds[|ds| - 1])
  }

  /** A commit records the card on top of the window, appends exactly one
      application and advances the cursor by one; with an empty window it
      changes nothing. */
  lemma CommitRecordsTopCard(jobs: seq<Job>, s: Session, d: Decision)
    ensures var top := VisibleJobs(jobs, s.applications, s.currentIndex);
      top != [] ==> (Commit(jobs, s, d) ==
        Session(s.applications + [Application(d.id, top[0].id, CurrentUser, d.status, d.appliedAt)],
                s.currentIndex + 1))
    ensures VisibleJobs(jobs, s.applications, s.currentIndex) == [] ==> Commit(jobs, s, d) == s
  {
  }

  /** The cursor never moves back and the ledger only grows at its end. */
  lemma {:induction false} ReplayMonotone(jobs: seq<Job>, s: Session, ds: seq<Decision>)
    ensures Replay(jobs, s, ds).currentIndex >= s.currentIndex
    ensures s.applications <= Replay(jobs, s, ds).applications
    ensures |Replay(jobs, s, ds).applications| - |s.applications|
            == Replay(jobs, s, ds).currentIndex - s.currentIndex <= |ds|
  {
    if ds != [] {
      ReplayMonotone(jobs, s, ds[..|ds| - 1]);
    }
  }

  /** A committed job is listed in the view of its status and not in the
      other view, and it has left the undecided list. */
  lemma CommittedJobLeavesPool(jobs: seq<Job>, s: Session, d: Decision, other: Status)
    requires other != d.status
    requires VisibleJobs(jobs, s.applications, s.currentIndex) != []
    ensures var job := VisibleJobs(jobs, s.applications, s.currentIndex)[0];
      var after := Commit(jobs, s, d).applications;
      job in JobsWithStatus(jobs, after, d.status)
      && job !in JobsWithStatus(jobs, after, other)
      && job !in AvailableJobs(jobs, after)
  {
    var available := AvailableJobs(jobs, s.applications);
    var job := available[s.currentIndex];
    var a := NewApplication(job.id, d.status, d.id, d.appliedAt);
    var after := s.applications + [a];
    assert job in available;
    assert job.id !in AppliedIds(s.applications);
    FirstDecision(s.applications, a, other);
    assert AppliedIds(after)[|s.applications|] == job.id;
    InViewIff(jobs, after, d.status, job);
    InViewIff(jobs, after, other, job);
  }

  /** Recording a job that no application names yet gives it a decision
      with the recorded status and none with the other. */
  lemma FirstDecision(apps: seq<Application>, a: Application, other: Status)
    requires a.jobId !in AppliedIds(apps) && other != a.status
    ensures HasDecision(apps + [a], a.jobId, a.status)
    ensures !HasDecision(apps + [a], a.jobId, other)
  {
    var after := apps + [a];
    assert after[|apps|] == a;
    forall i | 0 <= i < |apps| ensures after[i].jobId != a.jobId {
      assert after[i] == apps[i];
      assert AppliedIds(apps)[i] == apps[i].jobId;
    }
  }

  /** No two catalogue entries share an id. */
  predicate DistinctIds(jobs: seq<Job>) {
    forall i, j :: 0 <= i < j < |jobs| ==> jobs[i].id != jobs[j].id
  }

  /** The jobs at the odd indices 1, 3, .., 2k - 1. */
  function Odds(jobs: seq<Job>, k: nat): (r: seq<Job>)
    requires 2 * k <= |jobs|
    ensures |r| == k
    ensures forall i :: 0 <= i < k ==> r[i] == jobs[2 * i + 1]
  {
    if k == 0 then [] else Odds(jobs, k - 1) + [jobs[2 * k - 1]]
  }

  /** Adding one id to the list removes the jobs with that id from the
      unlisted-ids selection. */
  lemma {:induction false} SelectAddId(jobs: seq<Job>, ids: seq<string>, x: string)
    ensures Select(jobs, ids + [x], false) == Select(Select(jobs, ids, false), [x], false)
  {
    if jobs != [] {
      SelectAddId(jobs[1..], ids, x);
    }
  }

  /** Selection distributes over concatenation. */
  lemma {:induction false} SelectConcat(a: seq<Job>, b: seq<Job>, ids: seq<string>, keep: bool)
    ensures Select(a + b, ids, keep) == Select(a, ids, keep) + Select(b, ids, keep)
  {
    if a == [] {
      assert a + b == b;
    } else {
      assert (a + b)[1..] == a[1..] + b;
      SelectConcat(a[1..], b, ids, keep);
    }
  }

  /** Excluding an id no entry carries keeps every entry. */
  lemma {:induction false} SelectNoneListed(s: seq<Job>, ids: seq<string>)
    requires forall i :: 0 <= i < |s| ==> s[i].id !in ids
    ensures Select(s, ids, false) == s
  {
    if s != [] {
      SelectNoneListed(s[1..], ids);
    }
  }

  /** Recording the job at index `n` of a list with distinct ids removes
      exactly that job from it. */
  lemma RemoveHeadOfSuffix(jobs: seq<Job>, n: nat)
    requires DistinctIds(jobs) && n < |jobs|
    ensures Select(jobs[n..], [jobs[n].id], false) == jobs[n + 1..]
  {
    assert jobs[n..] == [jobs[n]] + jobs[n + 1..];
    SelectNoneListed(jobs[n + 1..], [jobs[n].id]);
  }

  /** One step of the skipping pattern: recording the job at index 2k, when
      the undecided list is the first k odd-index jobs followed by the
      catalogue from index 2k, leaves the first k + 1 odd-index jobs followed
      by the catalogue from index 2k + 2. */
  lemma SkipStep(jobs: seq<Job>, apps: seq<Application>, k: nat, a: Application)
    requires DistinctIds(jobs) && 2 * k + 2 <= |jobs|
    requires AvailableJobs(jobs, apps) == Odds(jobs, k) + jobs[2 * k..]
    requires a.jobId == jobs[2 * k].id
    ensures AvailableJobs(jobs, apps + [a]) == Odds(jobs, k + 1) + jobs[2 * (k + 1)..]
  {
    var ids := AppliedIds(apps);
    var x := jobs[2 * k].id;
    AppliedIdsAppend(apps, a);
    calc {
      AvailableJobs(jobs, apps + [a]);
      Select(jobs, ids + [x], false);
      { SelectAddId(jobs, ids, x); }
      Select(Select(jobs, ids, false), [x], false);
      Select(Odds(jobs, k) + jobs[2 * k..], [x], false);
      { SkipStepTail(jobs, k); }
      Odds(jobs, k + 1) + jobs[2 * (k + 1)..];
    }
  }

  /** The list part of one skipping step: removing the job at index 2k from
      the first k odd-index jobs followed by the catalogue from index 2k. */
  lemma SkipStepTail(jobs: seq<Job>, k: nat)
    requires DistinctIds(jobs) && 2 * k + 2 <= |jobs|
    ensures Select(Odds(jobs, k) + jobs[2 * k..], [jobs[2 * k].id], false)
            == Odds(jobs, k + 1) + jobs[2 * (k + 1)..]
  {
    RemoveSkipped(jobs, k);
    OddsExtend(jobs, k);
  }

  /** The job at index 2k leaves the list and nothing else does. */
  lemma RemoveSkipped(jobs: seq<Job>, k: nat)
    requires DistinctIds(jobs) && 2 * k + 2 <= |jobs|
    ensures Select(Odds(jobs, k) + jobs[2 * k..], [jobs[2 * k].id], false)
            == Odds(jobs, k) + jobs[2 * k + 1..]
  {
    var x := jobs[2 * k].id;
    var odds := Odds(jobs, k);
    var tail := jobs[2 * k..];
    forall i | 0 <= i < |odds| ensures odds[i].id != x {
      assert odds[i] == jobs[2 * i + 1];
    }
    forall i | 1 <= i < |tail| ensures tail[i].id != x {
      assert tail[i] == jobs[2 * k + i];
    }
    SelectRemovesOnlyHead(odds, tail, x);
    assert tail[1..] == jobs[2 * k + 1..];
  }

  /** Excluding the id of the first entry of `tail`, which no other entry of
      `head + tail` carries, removes exactly that entry. */
  lemma SelectRemovesOnlyHead(head: seq<Job>, tail: seq<Job>, x: string)
    requires forall i :: 0 <= i < |head| ==> head[i].id != x
    requires tail != [] && tail[0].id == x
    requires forall i :: 1 <= i < |tail| ==> tail[i].id != x
    ensures Select(head + tail, [x], false) == head + tail[1..]
  {
    SelectConcat(head, tail, [x], false);
    SelectNoneListed(head, [x]);
    forall i | 0 <= i < |tail[1..]| ensures tail[1..][i].id !in [x] {
      assert tail[1..][i] == tail[i + 1];
    }
    SelectNoneListed(tail[1..], [x]);
    assert tail == [tail[0]] + tail[1..];
  }

  /** The job at index 2k + 1 is now the last skipped one. */
  lemma OddsExtend(jobs: seq<Job>, k: nat)
    requires 2 * k + 2 <= |jobs|
    ensures Odds(jobs, k) + jobs[2 * k + 1..] == Odds(jobs, k + 1) + jobs[2 * (k + 1)..]
  {
    var odds := Odds(jobs, k);
    var next := jobs[2 * k + 1];
    var rest := jobs[2 * k + 2..];
    assert jobs[2 * k + 1..] == [next] + rest;
    assert Odds(jobs, k + 1) == odds + [next];
    assert odds + ([next] + rest) == (odds + [next]) + rest;
  }

  /** Recording one more application adds its job id at the end. */
  lemma AppliedIdsAppend(apps: seq<Application>, a: Application)
    ensures AppliedIds(apps + [a]) == AppliedIds(apps) + [a.jobId]
  {
  }

  /** The state after k commits from an empty ledger, as the skipping
      pattern predicts it. */
  ghost predicate SkippedState(jobs: seq<Job>, ds: seq<Decision>, s: Session)
    requires 2 * |ds| <= |jobs|
  {
    s.currentIndex == |ds|
    && |s.applications| == |ds|
    && (forall i :: 0 <= i < |ds| ==>
          s.applications[i] == NewApplication(jobs[2 * i].id, ds[i].status, ds[i].id, ds[i].appliedAt))
    && AvailableJobs(jobs, s.applications) == Odds(jobs, |ds|) + jobs[2 * |ds|..]
  }

  /** From an empty ledger and a catalogue with distinct ids, the k-th commit
      (counting from 0) records the job at index 2k, and afterwards the
      undecided list is the skipped odd-index jobs followed by the untouched
      rest of the catalogue. */
  lemma {:induction false} EveryOtherJobRecorded(jobs: seq<Job>, ds: seq<Decision>)
    requires DistinctIds(jobs) && 2 * |ds| <= |jobs|
    ensures SkippedState(jobs, ds, Replay(jobs, Session([], 0), ds))
  {
    if ds == [] {
      assert AppliedIds([]) == [];
      SelectNoneListed(jobs, []);
      assert jobs[0..] == jobs;
    } else {
      var k := |ds| - 1;
      var prev := ds[..k];
      EveryOtherJobRecorded(jobs, prev);
      var s := Replay(jobs, Session([], 0), prev);
      assert SkippedState(jobs, prev, s);
      var available := AvailableJobs(jobs, s.applications);
      assert available[k] == jobs[2 * k];
      var a := NewApplication(jobs[2 * k].id, ds[k].status, ds[k].id, ds[k].appliedAt);
      assert Replay(jobs, Session([], 0), ds) == Session(s.applications + [a], k + 1);
      SkipStep(jobs, s.applications, k, a);
      SkippedLedgerStep(jobs, ds, s.applications);
    }
  }

  /** The ledger part of one skipping step: the record of the last commit,
      for the job at index 2k, follows the records of the earlier ones. */
  lemma SkippedLedgerStep(jobs: seq<Job>, ds: seq<Decision>, apps: seq<Application>)
    requires ds != [] && 2 * |ds| <= |jobs| && |apps| == |ds| - 1
    requires forall i :: 0 <= i < |apps| ==>
      apps[i] == NewApplication(jobs[2 * i].id, ds[i].status, ds[i].id, ds[i].appliedAt)
    ensures var k := |ds| - 1;
      var a := NewApplication(jobs[2 * k].id, ds[k].status, ds[k].id, ds[k].appliedAt);
      forall i :: 0 <= i < |ds| ==>
        (apps + [a])[i] == NewApplication(jobs[2 * i].id, ds[i].status, ds[i].id, ds[i].appliedAt)
  {
  }

  /** After k commits from an empty ledger, the card on top is the job at
      index 2k of the catalogue, not the one at index k. */
  lemma TopCardAfterCommits(jobs: seq<Job>, ds: seq<Decision>)
    requires DistinctIds(jobs) && 2 * |ds| < |jobs|
    ensures var s := Replay(jobs, Session([], 0), ds);
      VisibleJobs(jobs, s.applications, s.currentIndex) != []
      && VisibleJobs(jobs, s.applications, s.currentIndex)[0] == jobs[2 * |ds|]
  {
    EveryOtherJobRecorded(jobs, ds);
    var s := Replay(jobs, Session([], 0), ds);
    assert AvailableJobs(jobs, s.applications)[|ds|] == jobs[2 * |ds|];
  }

  /** With 2k jobs and k commits, the window is empty and the empty-state
      card shows, although k jobs were never shown and are still undecided. */
  lemma SessionEndsEarly(jobs: seq<Job>, ds: seq<Decision>)
    requires DistinctIds(jobs) && |jobs| == 2 * |ds|
    ensures var s := Replay(jobs, Session([], 0), ds);
      VisibleJobs(jobs, s.applications, s.currentIndex) == []
      && |AvailableJobs(jobs, s.applications)| == |ds|
      && (forall i :: 0 <= i < |ds| ==> AvailableJobs(jobs, s.applications)[i] == jobs[2 * i + 1])
  {
    EveryOtherJobRecorded(jobs, ds);
    assert jobs[2 * |ds|..] == [];
    assert Odds(jobs, |ds|) + [] == Odds(jobs, |ds|);
  }

  /** The evidently intended commit: the recorded job leaves the undecided
      list, so the cursor stays where it is and the next undecided job moves
      under it. */
  function CommitIntended(jobs: seq<Job>, s: Session, d: Decision): Session {
    var available := AvailableJobs(jobs, s.applications);
    if s.currentIndex < |available| then
      Session(s.applications + [NewApplication(available[s.currentIndex].id, d.status, d.id, d.appliedAt)],
              s.currentIndex)
    else s
  }

  function ReplayIntended(jobs: seq<Job>, s: Session, ds: seq<Decision>): Session
    decreases |ds|
  {
    if ds == [] then s
    else CommitIntended(jobs, ReplayIntended(jobs, s, ds[..|ds| - 1]), ds[|ds| - 1])
  }

  /** The state after k intended commits from an empty ledger. */
  ghost predicate InOrderState(jobs: seq<Job>, ds: seq<Decision>, s: Session)
    requires |ds| <= |jobs|
  {
    s.currentIndex == 0
    && |s.applications| == |ds|
    && (forall i :: 0 <= i < |ds| ==>
          s.applications[i] == NewApplication(jobs[i].id, ds[i].status, ds[i].id, ds[i].appliedAt))
    && AvailableJobs(jobs, s.applications) == jobs[|ds|..]
  }

  /** Recording the first job of an undecided list that is a suffix of the
      catalogue leaves the next suffix. */
  lemma InOrderStep(jobs: seq<Job>, apps: seq<Application>, k: nat, a: Application)
    requires DistinctIds(jobs) && k < |jobs|
    requires AvailableJobs(jobs, apps) == jobs[k..]
    requires a.jobId == jobs[k].id
    ensures AvailableJobs(jobs, apps + [a]) == jobs[k + 1..]
  {
    var x := jobs[k].id;
    assert AppliedIds(apps + [a]) == AppliedIds(apps) + [x];
    SelectAddId(jobs, AppliedIds(apps), x);
    RemoveHeadOfSuffix(jobs, k);
  }

  /** With the intended commit, the k-th commit records the k-th job of the
      catalogue, every job is shown in turn, and the undecided list is the
      rest of the catalogue. */
  lemma {:induction false} IntendedRecordsEveryJob(jobs: seq<Job>, ds: seq<Decision>)
    requires DistinctIds(jobs) && |ds| <= |jobs|
    ensures InOrderState(jobs, ds, ReplayIntended(jobs, Session([], 0), ds))
  {
    if ds == [] {
      assert AppliedIds([]) == [];
      SelectNoneListed(jobs, []);
      assert jobs[0..] == jobs;
    } else {
      var k := |ds| - 1;
      var prev := ds[..k];
      IntendedRecordsEveryJob(jobs, prev);
      var s := ReplayIntended(jobs, Session([], 0), prev);
      assert InOrderState(jobs, prev, s);
      var a := NewApplication(jobs[k].id, ds[k].status, ds[k].id, ds[k].appliedAt);
      assert ReplayIntended(jobs, Session([], 0), ds) == Session(s.applications + [a], 0);
      InOrderStep(jobs, s.applications, k, a);
      forall i | 0 <= i < |ds| ensures (s.applications + [a])[i]
          == NewApplication(jobs[i].id, ds[i].status, ds[i].id, ds[i].appliedAt) {
        if i < k {
          assert ds[i] == prev[i];
        }
      }
    }
  }

  /** With the intended commit, the card on top after k commits is the k-th
      job of the catalogue, and the window is empty only once every job has
      been recorded. */
  lemma IntendedTopCard(jobs: seq<Job>, ds: seq<Decision>)
    requires DistinctIds(jobs) && |ds| <= |jobs|
    ensures var s := ReplayIntended(jobs, Session([], 0), ds);
      (|ds| < |jobs| ==> VisibleJobs(jobs, s.applications, s.currentIndex) != []
                         && VisibleJobs(jobs, s.applications, s.currentIndex)[0] == jobs[|ds|])
      && (|ds| == |jobs| ==> VisibleJobs(jobs, s.applications, s.currentIndex) == [])
  {
    IntendedRecordsEveryJob(jobs, ds);
  }

  /** One card of the rendered stack. */
  datatype Card = Card(job: Job, isTop: bool, zIndex: int, scale: real, offsetY: int)

  /** `visibleJobs.map((job, index) => ...)`: only the first card takes
      gestures; lower cards sit behind, smaller and further down. */
  function CardStack(visible: seq<Job>): (cards: seq<Card>)
    ensures |cards| == |visible|
    ensures forall i :: 0 <= i < |visible| ==> cards[i].job == visible[i]
    ensures forall i :: 0 <= i < |visible| ==> cards[i].zIndex == |visible| - i && (cards[i].isTop <==> i == 0)
  {
    seq(|visible|, i requires 0 <= i < |visible| =>
      Card(visible[i], i == 0, |visible| - i, 1.0 - (i as real) * 0.05, i * 10))
  }

  /** Exactly the first card of the stack is on top, and the stacking order
      falls strictly from it, down to 1. */
  lemma CardStackOrder(visible: seq<Job>)
    ensures forall i :: 0 <= i < |visible| ==> (CardStack(visible)[i].isTop <==> i == 0)
    ensures forall i, j :: 0 <= i < j < |visible| ==> CardStack(visible)[i].zIndex > CardStack(visible)[j].zIndex
    ensures forall i :: 0 <= i < |visible| ==> CardStack(visible)[i].zIndex >= 1
  {
  }

  /** The card the screen shows when no job is left. */
  const EmptyJob: Job := Job("empty", "No more jobs available", "office", "¥0", "N5", "0 minutes",
                             "Everywhere", [], ["Check back later for new opportunities!"])

  datatype Screen = Placeholder(job: Job) | Stack(cards: seq<Card>)

  /** What the session renders. */
  function Render(jobs: seq<Job>, apps: seq<Application>, currentIndex: nat): (screen: Screen)
    ensures screen.Placeholder? <==> VisibleJobs(jobs, apps, currentIndex) == []
    ensures screen.Placeholder? ==> screen.job == EmptyJob
    ensures screen.Stack? ==> |screen.cards| == |VisibleJobs(jobs, apps, currentIndex)|
  {
    var visible := VisibleJobs(jobs, apps, currentIndex);
    if |visible| == 0 then Placeholder(EmptyJob) else Stack(CardStack(visible))
  }

  /** The placeholder shows exactly when the cursor has reached the end of
      the undecided list; otherwise the top card is the job a commit would
      record. */
  lemma RenderSpec(jobs: seq<Job>, apps: seq<Application>, currentIndex: nat)
    ensures Render(jobs, apps, currentIndex).Placeholder? <==> currentIndex >= |AvailableJobs(jobs, apps)|
    ensures Render(jobs, apps, currentIndex).Stack? ==>
      var cards := Render(jobs, apps, currentIndex).cards;
      1 <= |cards| <= 3 && cards[0].isTop && cards[0].job == AvailableJobs(jobs, apps)[currentIndex]
  {
  }

  /** The session component: the shared store and the cursor. */
  class SwipeCards {
    const store: JobStore
    var currentIndex: nat

    constructor (store: JobStore)
      ensures this.store == store && currentIndex == 0
    {
      this.store := store;
      currentIndex := 0;
    }

    function State(): Session
      reads this, store
    {
      Session(store.applications, currentIndex)
    }

    function Visible(): seq<Job>
      reads this, store
    {
      VisibleJobs(store.jobs, store.applications, currentIndex)
    }

    /** Records the job at the cursor as chosen and advances the cursor;
        with the cursor at or past the end, does nothing. */
    method HandleSwipeRight(id: string, appliedAt: int)
      modifies this`currentIndex, store`applications
      ensures State() == Commit(store.jobs, old(State()), Decision(Chosen, id, appliedAt))
      ensures old(Visible()) != [] ==>
        store.applications == old(store.applications) + [NewApplication(old(Visible())[0].id, Chosen, id, appliedAt)]
        && currentIndex == old(currentIndex) + 1
      ensures old(Visible()) == [] ==>
        store.applications == old(store.applications) && currentIndex == old(currentIndex)
    {
      var available := AvailableJobs(store.jobs, store.applications);
      if currentIndex < |available| {
        var job := available[currentIndex];
        store.AddApplication(job.id, Chosen, id, appliedAt);
        currentIndex := currentIndex + 1;
      }
    }

    /** Records the job at the cursor as refused and advances the cursor;
        with the cursor at or past the end, does nothing. */
    method HandleSwipeLeft(id: string, appliedAt: int)
      modifies this`currentIndex, store`applications
      ensures State() == Commit(store.jobs, old(State()), Decision(Refused, id, appliedAt))
      ensures old(Visible()) != [] ==>
        store.applications == old(store.applications) + [NewApplication(old(Visible())[0].id, Refused, id, appliedAt)]
        && currentIndex == old(currentIndex) + 1
      ensures old(Visible()) == [] ==>
        store.applications == old(store.applications) && currentIndex == old(currentIndex)
    {
      var available := AvailableJobs(store.jobs, store.applications);
      if currentIndex < |available| {
        var job := available[currentIndex];
        store.AddApplication(job.id, Refused, id, appliedAt);
        currentIndex := currentIndex + 1;
      }
    }

    /** The top card is released with the given horizontal displacement: the
        card's decision picks the handler it calls, if any. */
    method ReleaseTopCard(translationX: real, id: string, appliedAt: int) returns (r: SwipeableCard.Release)
      modifies this`currentIndex, store`applications
      ensures r == SwipeableCard.Decide(translationX)
      ensures r == SwipeableCard.CommitRight ==> State() == Commit(store.jobs, old(State()), Decision(Chosen, id, appliedAt))
      ensures r == SwipeableCard.CommitLeft ==> State() == Commit(store.jobs, old(State()), Decision(Refused, id, appliedAt))
      ensures r == SwipeableCard.Return ==> State() == old(State())
    {
      r := SwipeableCard.Decide(translationX);
      match r
      case CommitRight => HandleSwipeRight(id, appliedAt);
      case CommitLeft => HandleSwipeLeft(id, appliedAt);
      case Return =>
    }
  }
}
