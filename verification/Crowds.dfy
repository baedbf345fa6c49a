/** Where run_until_idle is stopped by its cap: many tasks of a one-step external workflow, each with
    a submission its validator turns down. Each needs two claims, and the step's quota is one. */
module Crowds {
  import opened Models
  import opened Records
  import opened StateMachine
  import opened Worker
  import opened Protocol
  import opened Invariant
  import opened InvariantProof
  import opened Executor
  import opened Progress
  import opened Idle

  const CONFIG := Config(map["review" := ["ask"]], map["ask" := StepInfo(false, true, true, 2)], 0)
  const DEFAULT_QUOTA: map<string, nat> := map[]
  const REJECTING := Stubborn("ask")

  /** Queued with a first submission to judge. */
  function Submitter(t: TaskId): TaskSys {
    var row := NewRow("review", "ask", 0, None);
    TaskSys(Record(row, [Item("ask", 1, 2, ItemStatus.Submitted, Some(0), None, None, None)], [], [], []), map[], {row}, [], [])
  }

  function Crowd(n: nat): Sys {
    Sys(map t: TaskId | 0 <= t < n :: Submitter(t), n, 1)
  }

  lemma SubmitterOk(t: TaskId)
    ensures TaskOk(CONFIG, Submitter(t), 1) && OnCourse(CONFIG, REJECTING, Submitter(t)) && ClaimsLeft(CONFIG, REJECTING, Submitter(t).rec) == 2
  {
    assert Steps(CONFIG, "review") == ["ask"] && IndexOf(["ask"], "ask") == 0;
    var items := Submitter(t).rec.items;
    assert items[..0] == [] && AttemptOk(CONFIG, items, 0);
  }

  lemma {:induction false} CrowdTotal(n: nat, k: nat)
    requires k <= n
    ensures TotalLeft(CONFIG, REJECTING, Crowd(n).tasks, k) == 2 * k
  {
    hide ClaimsLeft, TaskOk, OnCourse;
    if k > 0 {
      SubmitterOk(k - 1);
      CrowdTotal(n, k - 1);
    }
  }

  lemma {:induction false} CrowdSize(n: nat)
    ensures |Crowd(n).tasks| == n
  {
    if n == 0 { assert Crowd(0).tasks == map[]; }
    else {
      CrowdSize(n - 1);
      assert Crowd(n).tasks.Keys == Crowd(n - 1).tasks.Keys + {n - 1};
    }
  }

  /** A crowd of `n` is a good state to start from; it may see twice as many claims, and its cap is
      fifty more than it has tasks. */
  lemma CrowdFacts(n: nat, cap: nat)
    requires CapIs(CONFIG, Crowd(n), cap)
    ensures Settled(CONFIG, REJECTING, Crowd(n), Crowd(n)) && SmoothConfig(CONFIG, REJECTING) && Quota(DEFAULT_QUOTA, "ask") == 1
    ensures Total(CONFIG, REJECTING, Crowd(n)) == 2 * n && cap == n + 50
  {
    CrowdStarts(n);
    CrowdTotal(n, n);
    CrowdSize(n);
    assert "review" in CONFIG.workflows;
    hide Settled, TotalLeft, Crowd;
  }

  lemma CrowdStarts(n: nat)
    ensures Settled(CONFIG, REJECTING, Crowd(n), Crowd(n)) && SmoothConfig(CONFIG, REJECTING)
  {
    SubmitterOk(0);
    hide TaskOk, OnCourse, UnderWay;
    assert forall t :: t in Crowd(n).tasks ==> Crowd(n).tasks[t] == Submitter(0);
  }

  /** The validator turns every submission down. */
  function Reject1(round: nat, t: TaskId, n: nat, judging: bool): Input {
    Input(NewRow("review", "ask", 0, None), NoGate, true, if judging then SubmissionRejected("no") else Returned(false, [], None), false, 0)
  }

  /** From fifty tasks on the cap stops the loop, and from fifty-one on with due tasks left queued;
      with fewer it does not. */
  method RejectedCrowd(n: nat, early: (nat, nat) -> set<TaskId>, clock: int -> int) returns (s: Sys, rounds: nat, cap: nat, idle: bool)
    ensures cap == n + 50 && (idle <==> n < 50)
    ensures n > 50 ==> rounds == cap && forall now :: !NothingRunnable(CONFIG, DEFAULT_QUOTA, s, now)
  {
    hide Settled, Total, CapIs, NothingRunnable, SmoothConfig, Quota;
    CrowdStarts(n);
    AllReject(Reject1);
    s, rounds, cap, idle := RunUntilIdle(CONFIG, DEFAULT_QUOTA, REJECTING, Crowd(n), Reject1, early, (r, t) => true, (r, t) => false, clock);
    CrowdFacts(n, cap);
  }

  lemma AllReject(answers: Answers)
    requires answers == Reject1
    ensures SmoothAnswers(REJECTING, answers)
  {
  }
}
