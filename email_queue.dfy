/** The notification job queue of lib/email-queue.ts: a list of e-mail jobs kept
    in descending priority order, handed out one at a time, retried on failure
    up to a per-job limit, and drained by a single-flight processing tick.

    The list that the source keeps in localStorage is the field `queue` of
    class `EmailQueueManager`; the pure functions before the class say what
    each operation does to that list, and the lemmas say what those functions
    guarantee. */
module EmailQueue {
  import opened Base

  type JobId = nat
  type Stamp = nat

  datatype JobStatus = Pending | Processing | Completed | Failed

  /** The `to` field: one address or several. */
  datatype Recipients = One(address: string) | Many(addresses: seq<string>)

  /** What a caller hands to `addJob`: the job fields it sets, that is every
      field except id, status, attempts, createdAt, processedAt and error.
      `None` is a field left undefined. */
  datatype JobData = JobData(
    to: Recipients, subject: string, html: Option<string>, text: Option<string>,
    from: Option<string>, maxAttempts: Option<int>, priority: Option<int>)

  datatype EmailJob = EmailJob(
    id: JobId, to: Recipients, subject: string, html: Option<string>,
    text: Option<string>, from: Option<string>, status: JobStatus,
    attempts: nat, maxAttempts: int, createdAt: Stamp,
    processedAt: Option<Stamp>, error: Option<string>, priority: int)

  datatype QueueStats = QueueStats(pending: nat, processing: nat, completed: nat, failed: nat, total: nat)

  /** One message of a batch request (`BatchEmailRequest.emails[i]`). */
  datatype EmailRequest = EmailRequest(to: string, subject: string, html: Option<string>, text: Option<string>)

  /** How the send of one job ended: an ok response, a non-ok response whose
      body text becomes the job's error, or a thrown exception. */
  datatype SendOutcome = Delivered | Rejected(body: string) | Thrown

  /** The sender address the batch route puts on every job. */
  const BatchSender: string := "onboarding@resend.dev"

  /** `x || d` on a number field: undefined and 0 are falsy. */
  function OrDefault(x: Option<int>, d: int): int
  {
    if x.None? || x.value == 0 then d else x.value
  }

  // ---------------------------------------------------------------------------
  // Creating a job
  // ---------------------------------------------------------------------------

  /** The job `addJob` builds from `data`, with the fresh id and the clock value. */
  function NewJob(data: JobData, id: JobId, now: Stamp): (j: EmailJob)
    ensures j.id == id && j.status == Pending && j.attempts == 0 && j.createdAt == now
    ensures j.processedAt == None && j.error == None
    ensures j.to == data.to && j.subject == data.subject && j.html == data.html
    ensures j.text == data.text && j.from == data.from
    ensures j.maxAttempts == (if data.maxAttempts.None? || data.maxAttempts.value == 0 then 3 else data.maxAttempts.value)
    ensures j.priority == (if data.priority.None? || data.priority.value == 0 then 1 else data.priority.value)
  {
    EmailJob(id, data.to, data.subject, data.html, data.text, data.from, Pending, 0,
             OrDefault(data.maxAttempts, 3), now, None, None, OrDefault(data.priority, 1))
  }

  // ---------------------------------------------------------------------------
  // Priority order
  // ---------------------------------------------------------------------------

  /** Non-increasing priority from the front of the list to its back. */
  predicate SortedByPriority(q: seq<EmailJob>)
  {
    forall i, j :: 0 <= i < j < |q| ==> q[i].priority >= q[j].priority
  }

  predicate IdsBelow(q: seq<EmailJob>, bound: JobId)
  {
    forall j :: j in q ==> j.id < bound
  }

  predicate DistinctIds(q: seq<EmailJob>)
  {
    forall i, j :: 0 <= i < j < |q| ==> q[i].id != q[j].id
  }

  /** The jobs of priority `p`, in list order. Stability of a sort is the
      statement that it keeps this subsequence for every `p`. */
  function WithPriority(q: seq<EmailJob>, p: int): (r: seq<EmailJob>)
    ensures |r| <= |q|
  {
    if q == [] then [] else (if q[0].priority == p then [q[0]] else []) + WithPriority(q[1..], p)
  }

  lemma {:induction false} WithPriorityAppend(a: seq<EmailJob>, b: seq<EmailJob>, p: int)
    ensures WithPriority(a + b, p) == WithPriority(a, p) + WithPriority(b, p)
  {
    if a != [] {
      var h := if a[0].priority == p then [a[0]] else [];
      assert (a + b)[0] == a[0];
      assert (a + b)[1..] == a[1..] + b;
      WithPriorityAppend(a[1..], b, p);
      assert WithPriority(a + b, p) == h + WithPriority(a[1..] + b, p);
      assert WithPriority(a, p) == h + WithPriority(a[1..], p);
    } else {
      assert a + b == b;
    }
  }

  lemma {:induction false} WithPriorityNone(q: seq<EmailJob>, p: int)
    requires forall y :: y in q ==> y.priority < p
    ensures WithPriority(q, p) == []
  {
    if q != [] {
      assert q[0] in q;
      WithPriorityNone(q[1..], p);
    }
  }

  /** Where a stable descending sort puts `x` when it was pushed at the back of
      an already sorted list: after every job whose priority is at least its own. */
  function Insert(q: seq<EmailJob>, x: EmailJob): (r: seq<EmailJob>)
    ensures |r| == |q| + 1
    ensures r[0] == x || (q != [] && r[0] == q[0])
  {
    if q == [] then [x]
    else if q[0].priority >= x.priority then [q[0]] + Insert(q[1..], x)
    else [x] + q
  }

  /** Inserting into a list in priority order keeps it in priority order. */
  lemma {:induction false} InsertSorted(q: seq<EmailJob>, x: EmailJob)
    requires SortedByPriority(q)
    ensures SortedByPriority(Insert(q, x))
  {
    if q != [] && q[0].priority >= x.priority {
      var rest := Insert(q[1..], x);
      InsertSorted(q[1..], x);
      var r := [q[0]] + rest;
      assert r == Insert(q, x);
      assert q[0].priority >= rest[0].priority by {
        if |q| > 1 { assert q[0].priority >= q[1].priority; }
      }
      forall i, j | 0 <= i < j < |r| ensures r[i].priority >= r[j].priority {
        if i == 0 {
          assert r[j] == rest[j - 1];
          assert j - 1 == 0 || rest[0].priority >= rest[j - 1].priority;
        } else {
          assert r[i] == rest[i - 1] && r[j] == rest[j - 1];
        }
      }
    }
  }

  /** Inserting adds `x` and loses nothing. */
  lemma {:induction false} InsertPermutes(q: seq<EmailJob>, x: EmailJob)
    ensures multiset(Insert(q, x)) == multiset(q) + multiset{x}
  {
    if q != [] && q[0].priority >= x.priority {
      InsertPermutes(q[1..], x);
      assert Insert(q, x) == [q[0]] + Insert(q[1..], x);
      assert q == [q[0]] + q[1..];
    }
  }

  /** Inserting `x` appends it to the jobs of its own priority and leaves the
      jobs of every other priority as they were. */
  lemma {:induction false} InsertIsStable(q: seq<EmailJob>, x: EmailJob, p: int)
    requires SortedByPriority(q)
    ensures WithPriority(Insert(q, x), p) == WithPriority(q, p) + (if x.priority == p then [x] else [])
  {
    var tail := if x.priority == p then [x] else [];
    if q == [] {
      assert Insert(q, x) == [x] + [];
    } else if q[0].priority >= x.priority {
      var rest := Insert(q[1..], x);
      assert Insert(q, x) == [q[0]] + rest;
      SortedTail(q);
      InsertIsStable(q[1..], x, p);
      WithPriorityCons(q[0], rest, p);
      WithPriorityCons(q[0], q[1..], p);
      assert q == [q[0]] + q[1..];
    } else {
      assert Insert(q, x) == [x] + q;
      WithPriorityCons(x, q, p);
      if x.priority == p {
        StableHead(q, p);
      }
    }
  }

  lemma WithPriorityCons(h: EmailJob, t: seq<EmailJob>, p: int)
    ensures WithPriority([h] + t, p) == (if h.priority == p then [h] else []) + WithPriority(t, p)
  {
    assert ([h] + t)[1..] == t;
  }

  /** In a sorted list whose head is below `p`, no job has priority `p`. */
  lemma StableHead(q: seq<EmailJob>, p: int)
    requires SortedByPriority(q) && q != [] && q[0].priority < p
    ensures WithPriority(q, p) == []
  {
    forall y | y in q ensures y.priority < p {
      var i :| 0 <= i < |q| && q[i] == y;
    }
    WithPriorityNone(q, p);
  }

  /** `queue.sort((a, b) => b.priority - a.priority)`: the engine's sort is
      stable, so this is insertion sort, one element at a time from the front. */
  function SortByPriority(q: seq<EmailJob>): (r: seq<EmailJob>)
    ensures SortedByPriority(r)
    decreases |q|
  {
    if q == [] then []
    else
      var init := SortByPriority(q[..|q| - 1]);
      InsertSorted(init, q[|q| - 1]);
      Insert(init, q[|q| - 1])
  }

  /** The sort is a permutation: it adds and loses no job. */
  lemma {:induction false} SortPermutes(q: seq<EmailJob>)
    ensures multiset(SortByPriority(q)) == multiset(q)
    decreases |q|
  {
    if q != [] {
      var init, last := q[..|q| - 1], q[|q| - 1];
      SortPermutes(init);
      InsertPermutes(SortByPriority(init), last);
      assert init + [last] == q;
    }
  }

  /** The sort is stable: for every priority, the jobs of that priority come
      out in the order they went in. */
  lemma {:induction false} SortIsStable(q: seq<EmailJob>, p: int)
    ensures WithPriority(SortByPriority(q), p) == WithPriority(q, p)
    decreases |q|
  {
    if q != [] {
      var init, last := q[..|q| - 1], q[|q| - 1];
      SortIsStable(init, p);
      InsertIsStable(SortByPriority(init), last, p);
      WithPriorityAppend(init, [last], p);
      assert init + [last] == q;
      assert [last][1..] == [];
    }
  }

  lemma {:induction false} InsertAtEnd(q: seq<EmailJob>, x: EmailJob)
    requires SortedByPriority(q)
    requires forall y :: y in q ==> y.priority >= x.priority
    ensures Insert(q, x) == q + [x]
  {
    if q != [] {
      assert q[0] in q;
      InsertAtEnd(q[1..], x);
      assert q == [q[0]] + q[1..];
    }
  }

  /** A list that is already in priority order comes out of the sort unchanged. */
  lemma {:induction false} SortKeepsSorted(q: seq<EmailJob>)
    requires SortedByPriority(q)
    ensures SortByPriority(q) == q
    decreases |q|
  {
    if q != [] {
      var init, last := q[..|q| - 1], q[|q| - 1];
      SortedInit(q);
      SortKeepsSorted(init);
      InsertAtEnd(init, last);
      assert init + [last] == q;
    }
  }

  lemma SortedInit(q: seq<EmailJob>)
    requires SortedByPriority(q) && q != []
    ensures SortedByPriority(q[..|q| - 1])
    ensures forall y :: y in q[..|q| - 1] ==> y.priority >= q[|q| - 1].priority
  {
    var init := q[..|q| - 1];
    forall y | y in init ensures y.priority >= q[|q| - 1].priority {
      var i :| 0 <= i < |init| && init[i] == y;
      assert q[i] == y;
    }
  }

  /** Push-then-sort on the stored (sorted) list is insertion of the new job
      after every job of equal or higher priority. */
  lemma PushThenSortIsInsert(q: seq<EmailJob>, x: EmailJob)
    requires SortedByPriority(q)
    ensures SortByPriority(q + [x]) == Insert(q, x)
  {
    assert (q + [x])[..|q|] == q;
    SortKeepsSorted(q);
  }

  lemma InsertMembers(q: seq<EmailJob>, x: EmailJob)
    ensures forall y :: y in Insert(q, x) <==> y in q || y == x
  {
    InsertPermutes(q, x);
    assert forall y :: y in Insert(q, x) <==> y in multiset(Insert(q, x));
    assert forall y :: y in q <==> y in multiset(q);
  }

  /** Inserting a job whose id is above every id in the list keeps the ids
      distinct. */
  lemma {:induction false} InsertKeepsIds(q: seq<EmailJob>, x: EmailJob, bound: JobId)
    requires DistinctIds(q) && IdsBelow(q, bound)
    requires x.id == bound
    ensures DistinctIds(Insert(q, x)) && IdsBelow(Insert(q, x), bound + 1)
    decreases |q|
  {
    InsertMembers(q, x);
    if q != [] {
      DistinctTail(q);
      if q[0].priority >= x.priority {
        InsertKeepsIds(q[1..], x, bound);
        InsertMembers(q[1..], x);
        DistinctCons(q[0], Insert(q[1..], x));
      } else {
        DistinctCons(x, q);
      }
    }
  }

  /** The list invariant of the manager: priority order, distinct ids, all
      below the next fresh id. */
  predicate WellFormed(q: seq<EmailJob>, nextId: JobId)
  {
    SortedByPriority(q) && DistinctIds(q) && IdsBelow(q, nextId)
  }

  /** Push-then-sort of a job with the next fresh id keeps the invariant. */
  lemma AddKeepsInvariant(q: seq<EmailJob>, x: EmailJob, bound: JobId)
    requires WellFormed(q, bound) && x.id == bound
    ensures WellFormed(SortByPriority(q + [x]), bound + 1)
  {
    PushThenSortIsInsert(q, x);
    InsertKeepsIds(q, x, bound);
  }

  // ---------------------------------------------------------------------------
  // Finding jobs
  // ---------------------------------------------------------------------------

  /** Index of the first pending job (`queue.find(job => job.status === "pending")`). */
  function FirstPending(q: seq<EmailJob>): (r: Option<nat>)
    ensures r.None? <==> forall j :: j in q ==> j.status != Pending
    ensures r.Some? ==> r.value < |q| && q[r.value].status == Pending
    ensures r.Some? ==> forall i :: 0 <= i < r.value ==> q[i].status != Pending
  {
    if q == [] then None
    else if q[0].status == Pending then Some(0)
    else
      match FirstPending(q[1..])
      case None => assert q == [q[0]] + q[1..]; None
      case Some(k) => Some(k + 1)
  }

  /** Index of the first job with id `id` (`queue.find(j => j.id === jobId)`). */
  function FindJob(q: seq<EmailJob>, id: JobId): (r: Option<nat>)
    ensures r.None? <==> forall j :: j in q ==> j.id != id
    ensures r.Some? ==> r.value < |q| && q[r.value].id == id
    ensures r.Some? ==> forall i :: 0 <= i < r.value ==> q[i].id != id
  {
    if q == [] then None
    else if q[0].id == id then Some(0)
    else
      match FindJob(q[1..], id)
      case None => assert q == [q[0]] + q[1..]; None
      case Some(k) => Some(k + 1)
  }

  /** Priority law: in a sorted list the first pending job has the highest
      priority of all pending jobs, and among pending jobs of that priority it
      is the one nearest the front. */
  lemma {:induction false} FirstPendingIsHighestPriority(q: seq<EmailJob>)
    requires SortedByPriority(q)
    requires FirstPending(q).Some?
    ensures forall j :: 0 <= j < |q| && q[j].status == Pending ==>
              q[FirstPending(q).value].priority >= q[j].priority &&
              FirstPending(q).value <= j
  {
  }

  // ---------------------------------------------------------------------------
  // Changing one job
  // ---------------------------------------------------------------------------

  /** `completeJob` applied to the found job. */
  function MarkCompleted(j: EmailJob, now: Stamp): (r: EmailJob)
    ensures r.status == Completed && r.processedAt == Some(now)
    ensures r.(status := j.status, processedAt := j.processedAt) == j
  {
    j.(status := Completed, processedAt := Some(now))
  }

  /** `failJob` applied to the found job: one more attempt, the error kept,
      and back to pending unless the attempt limit is reached. */
  function FailedAttempt(j: EmailJob, err: string, now: Stamp): (r: EmailJob)
    ensures r.attempts == j.attempts + 1 && r.error == Some(err) && r.processedAt == Some(now)
    ensures r.status == Failed <==> r.attempts >= j.maxAttempts
    ensures r.status != Failed ==> r.status == Pending
    ensures r.id == j.id && r.priority == j.priority && r.maxAttempts == j.maxAttempts
    ensures r.(attempts := j.attempts, error := j.error, status := j.status, processedAt := j.processedAt) == j
  {
    var attempts := j.attempts + 1;
    j.(attempts := attempts, error := Some(err),
       status := if attempts >= j.maxAttempts then Failed else Pending,
       processedAt := Some(now))
  }

  /** The job after `k` rounds of "dequeued, then the send failed". */
  function FailRepeatedly(j: EmailJob, k: nat, err: string, now: Stamp): (r: EmailJob)
  {
    if k == 0 then j else FailedAttempt(FailRepeatedly(j, k - 1, err, now).(status := Processing), err, now)
  }

  /** Retry law: a fresh job whose every send fails is pending again after
      each of its first maxAttempts - 1 failures (so it is dequeued again), and
      after failure number maxAttempts it is failed with attempts == maxAttempts. */
  lemma {:induction false} RetryLaw(j: EmailJob, k: nat, err: string, now: Stamp)
    requires j.status == Pending && j.attempts == 0 && j.maxAttempts >= 1
    requires k <= j.maxAttempts
    ensures FailRepeatedly(j, k, err, now).attempts == k
    ensures FailRepeatedly(j, k, err, now).maxAttempts == j.maxAttempts
    ensures FailRepeatedly(j, k, err, now).status == if k < j.maxAttempts then Pending else Failed
    ensures k > 0 ==> FailRepeatedly(j, k, err, now).error == Some(err)
  {
    if k > 0 {
      RetryLaw(j, k - 1, err, now);
    }
  }

  /** A job created with no limit given is failed after its third failed send. */
  lemma DefaultLimitIsThree(data: JobData, id: JobId, now: Stamp, err: string)
    requires data.maxAttempts.None?
    ensures FailRepeatedly(NewJob(data, id, now), 2, err, now).status == Pending
    ensures FailRepeatedly(NewJob(data, id, now), 3, err, now).status == Failed
    ensures FailRepeatedly(NewJob(data, id, now), 3, err, now).attempts == 3
  {
    RetryLaw(NewJob(data, id, now), 2, err, now);
    RetryLaw(NewJob(data, id, now), 3, err, now);
  }

  // ---------------------------------------------------------------------------
  // Statistics and purging
  // ---------------------------------------------------------------------------

  function Count(q: seq<EmailJob>, s: JobStatus): (n: nat)
    ensures n <= |q|
  {
    if q == [] then 0 else (if q[0].status == s then 1 else 0) + Count(q[1..], s)
  }

  lemma {:induction false} CountsPartition(q: seq<EmailJob>)
    ensures Count(q, Pending) + Count(q, Processing) + Count(q, Completed) + Count(q, Failed) == |q|
  {
    if q != [] {
      CountsPartition(q[1..]);
    }
  }

  /** `getStats`: one count per status and the list length. */
  function Stats(q: seq<EmailJob>): (r: QueueStats)
    ensures r.total == |q|
    ensures r.pending + r.processing + r.completed + r.failed == r.total
    ensures r.pending == Count(q, Pending) && r.processing == Count(q, Processing)
    ensures r.completed == Count(q, Completed) && r.failed == Count(q, Failed)
  {
    CountsPartition(q);
    QueueStats(Count(q, Pending), Count(q, Processing), Count(q, Completed), Count(q, Failed), |q|)
  }

  /** `queue.filter(job => job.status !== "completed")`. */
  function RemoveCompleted(q: seq<EmailJob>): (r: seq<EmailJob>)
    ensures forall j :: j in r <==> j in q && j.status != Completed
    ensures |r| <= |q|
  {
    if q == [] then []
    else
      var rest := RemoveCompleted(q[1..]);
      assert q == [q[0]] + q[1..];
      if q[0].status == Completed then rest else [q[0]] + rest
  }

  /** The purge leaves no completed job, keeps the count of every other
      status, and shortens the list by the number of completed jobs. */
  lemma {:induction false} RemoveCompletedCounts(q: seq<EmailJob>, s: JobStatus)
    ensures Count(RemoveCompleted(q), s) == if s == Completed then 0 else Count(q, s)
    ensures |RemoveCompleted(q)| == |q| - Count(q, Completed)
  {
    if q != [] {
      RemoveCompletedCounts(q[1..], s);
      var r := RemoveCompleted(q);
      if q[0].status != Completed {
        assert r[0] == q[0] && r[1..] == RemoveCompleted(q[1..]);
      }
    }
  }

  /** The purge works job by job: on a list split in two it is the purge of
      each part, side by side, so every kept job keeps its relative order. */
  lemma {:induction false} RemoveCompletedSplits(a: seq<EmailJob>, b: seq<EmailJob>)
    ensures RemoveCompleted(a + b) == RemoveCompleted(a) + RemoveCompleted(b)
  {
    if a != [] {
      var h := if a[0].status == Completed then [] else [a[0]];
      assert (a + b)[0] == a[0];
      assert (a + b)[1..] == a[1..] + b;
      RemoveCompletedSplits(a[1..], b);
      assert RemoveCompleted(a + b) == h + RemoveCompleted(a[1..] + b);
      assert RemoveCompleted(a) == h + RemoveCompleted(a[1..]);
    } else {
      assert a + b == b;
    }
  }

  /** On a single job the purge keeps it exactly when it is not completed. */
  lemma RemoveCompletedSingle(j: EmailJob)
    ensures RemoveCompleted([j]) == if j.status == Completed then [] else [j]
  {
    assert [j][1..] == [];
  }

  /** Every job of `q` has priority at most `p`. */
  predicate AllAtMost(q: seq<EmailJob>, p: int)
  {
    forall y :: y in q ==> y.priority <= p
  }

  lemma SortedTail(q: seq<EmailJob>)
    requires SortedByPriority(q) && q != []
    ensures SortedByPriority(q[1..]) && AllAtMost(q[1..], q[0].priority)
  {
    forall y | y in q[1..] ensures y.priority <= q[0].priority {
      var i :| 0 <= i < |q[1..]| && q[1..][i] == y;
      assert q[i + 1] == y;
    }
  }

  lemma SortedCons(h: EmailJob, q: seq<EmailJob>)
    requires SortedByPriority(q) && AllAtMost(q, h.priority)
    ensures SortedByPriority([h] + q)
  {
    var r := [h] + q;
    forall i, j | 0 <= i < j < |r| ensures r[i].priority >= r[j].priority {
      if i == 0 { assert r[j] in q; } else { assert r[i] == q[i - 1] && r[j] == q[j - 1]; }
    }
  }

  lemma {:induction false} RemoveCompletedSorted(q: seq<EmailJob>)
    requires SortedByPriority(q)
    ensures SortedByPriority(RemoveCompleted(q))
  {
    if q != [] {
      SortedTail(q);
      RemoveCompletedSorted(q[1..]);
      if q[0].status != Completed {
        SortedCons(q[0], RemoveCompleted(q[1..]));
      }
    }
  }

  lemma DistinctTail(q: seq<EmailJob>)
    requires DistinctIds(q) && q != []
    ensures DistinctIds(q[1..]) && forall y :: y in q[1..] ==> y.id != q[0].id
  {
    forall y | y in q[1..] ensures y.id != q[0].id {
      var i :| 0 <= i < |q[1..]| && q[1..][i] == y;
      assert q[i + 1] == y;
    }
  }

  lemma DistinctCons(h: EmailJob, q: seq<EmailJob>)
    requires DistinctIds(q) && forall y :: y in q ==> y.id != h.id
    ensures DistinctIds([h] + q)
  {
    var r := [h] + q;
    forall i, j | 0 <= i < j < |r| ensures r[i].id != r[j].id {
      if i == 0 { assert r[j] in q; } else { assert r[i] == q[i - 1] && r[j] == q[j - 1]; }
    }
  }

  lemma {:induction false} RemoveCompletedDistinct(q: seq<EmailJob>)
    requires DistinctIds(q)
    ensures DistinctIds(RemoveCompleted(q))
  {
    if q != [] {
      DistinctTail(q);
      RemoveCompletedDistinct(q[1..]);
      if q[0].status != Completed {
        DistinctCons(q[0], RemoveCompleted(q[1..]));
      }
    }
  }

  // ---------------------------------------------------------------------------
  // Batches
  // ---------------------------------------------------------------------------

  /** The list after `addJob` is called on each of the first `n` of `ds` in
      turn, the k-th call taking id `firstId + k`. */
  function EnqueueAll(q: seq<EmailJob>, ds: seq<JobData>, n: nat, firstId: JobId, now: Stamp): (r: seq<EmailJob>)
    requires n <= |ds|
    ensures n > 0 ==> SortedByPriority(r)
  {
    if n == 0 then q
    else SortByPriority(EnqueueAll(q, ds, n - 1, firstId, now) + [NewJob(ds[n - 1], firstId + n - 1, now)])
  }

  /** The ids a batch of `n` jobs is given: `n` consecutive fresh ids. */
  function FreshIds(first: JobId, n: nat): (r: seq<JobId>)
    ensures |r| == n
    ensures forall k :: 0 <= k < n ==> r[k] == first + k
  {
    if n == 0 then [] else FreshIds(first, n - 1) + [first + n - 1]
  }

  /** The jobs a batch of `ds` creates, in input order. */
  function NewJobs(ds: seq<JobData>, firstId: JobId, now: Stamp): (r: seq<EmailJob>)
    ensures |r| == |ds|
    ensures forall k :: 0 <= k < |ds| ==> r[k] == NewJob(ds[k], firstId + k, now)
    decreases |ds|
  {
    if ds == [] then []
    else
      var k := |ds| - 1;
      NewJobs(ds[..k], firstId, now) + [NewJob(ds[k], firstId + k, now)]
  }

  /** A batch adds exactly its new jobs to the list. */
  lemma {:induction false} EnqueueAllContents(q: seq<EmailJob>, ds: seq<JobData>, n: nat, firstId: JobId, now: Stamp)
    requires n <= |ds|
    ensures multiset(EnqueueAll(q, ds, n, firstId, now)) == multiset(q) + multiset(NewJobs(ds[..n], firstId, now))
  {
    if n == 0 {
      assert NewJobs(ds[..n], firstId, now) == [];
    } else {
      var prev := EnqueueAll(q, ds, n - 1, firstId, now);
      var job := NewJob(ds[n - 1], firstId + n - 1, now);
      assert EnqueueAll(q, ds, n, firstId, now) == SortByPriority(prev + [job]);
      EnqueueAllContents(q, ds, n - 1, firstId, now);
      SortPermutes(prev + [job]);
      assert multiset(prev + [job]) == multiset(prev) + multiset{job};
      NewJobsStep(ds, n, firstId, now);
    }
  }

  lemma NewJobsStep(ds: seq<JobData>, n: nat, firstId: JobId, now: Stamp)
    requires 0 < n <= |ds|
    ensures multiset(NewJobs(ds[..n], firstId, now))
            == multiset(NewJobs(ds[..n - 1], firstId, now)) + multiset{NewJob(ds[n - 1], firstId + n - 1, now)}
  {
    assert ds[..n][..n - 1] == ds[..n - 1];
  }

  /** The job data the batch route (app/api/email-queue/route.ts) builds from
      the requests: the fixed sender, three attempts and `priority || 1`. */
  function BatchJobData(emails: seq<EmailRequest>, priority: Option<int>): (r: seq<JobData>)
    ensures |r| == |emails|
    ensures forall k :: 0 <= k < |r| ==>
              r[k].to == One(emails[k].to) && r[k].subject == emails[k].subject &&
              r[k].html == emails[k].html && r[k].text == emails[k].text
    ensures forall k :: 0 <= k < |r| ==>
              r[k].from == Some(BatchSender) && r[k].maxAttempts == Some(3) &&
              r[k].priority == Some(if priority.None? || priority.value == 0 then 1 else priority.value)
  {
    seq(|emails|, k requires 0 <= k < |emails| =>
      JobData(One(emails[k].to), emails[k].subject, emails[k].html, emails[k].text,
              Some(BatchSender), Some(3), Some(OrDefault(priority, 1))))
  }

  // ---------------------------------------------------------------------------
  // The manager
  // ---------------------------------------------------------------------------

  /** `EmailQueueManager`. `queue` stands for the list saved under the
      storage key; `processingInterval` holds the period of the running timer,
      if any; `nextId` replaces `crypto.randomUUID` by a counter of fresh ids. */
  class EmailQueueManager {
    var queue: seq<EmailJob>
    var processingInterval: Option<nat>
    var isProcessing: bool
    var nextId: JobId

    /** The list is in priority order and every id in it was handed out once. */
    ghost predicate Valid()
      reads this
    {
      WellFormed(queue, nextId)
    }

    constructor ()
      ensures Valid()
      ensures queue == [] && processingInterval == None && !isProcessing
    {
      queue := [];
      processingInterval := None;
      isProcessing := false;
      nextId := 0;
    }

    /** `addJob`: a fresh pending job is pushed and the list re-sorted. */
    method AddJob(data: JobData, now: Stamp) returns (id: JobId)
      requires Valid()
      modifies this
      ensures Valid()
      ensures id == old(nextId) && nextId == id + 1
      ensures forall j :: j in old(queue) ==> j.id != id
      ensures queue == SortByPriority(old(queue) + [NewJob(data, id, now)])
      ensures processingInterval == old(processingInterval) && isProcessing == old(isProcessing)
    {
      id := nextId;
      var job := NewJob(data, id, now);
      AddKeepsInvariant(queue, job, id);
      queue := SortByPriority(queue + [job]);
      nextId := nextId + 1;
    }

    /** `addBatchJobs`: `addJob` on each input in turn; one id per input, in
        input order. */
    method AddBatchJobs(emails: seq<JobData>, now: Stamp) returns (jobIds: seq<JobId>)
      requires Valid()
      modifies this
      ensures Valid()
      ensures |jobIds| == |emails|
      ensures jobIds == FreshIds(old(nextId), |emails|)
      ensures nextId == old(nextId) + |emails|
      ensures queue == EnqueueAll(old(queue), emails, |emails|, old(nextId), now)
      ensures processingInterval == old(processingInterval) && isProcessing == old(isProcessing)
    {
      ghost var q0, id0 := queue, nextId;
      jobIds := [];
      var i := 0;
      while i < |emails|
        invariant 0 <= i <= |emails|
        invariant Valid()
        invariant jobIds == FreshIds(id0, i)
        invariant nextId == id0 + i
        invariant queue == EnqueueAll(q0, emails, i, id0, now)
        invariant processingInterval == old(processingInterval) && isProcessing == old(isProcessing)
      {
        var jobId := AddJob(emails[i], now);
        jobIds := jobIds + [jobId];
        i := i + 1;
      }
    }

    /** `getNextJob`: the first pending job in list order becomes processing
        and is returned; with nothing pending the list is left as it is. */
    method GetNextJob() returns (job: Option<EmailJob>)
      requires Valid()
      modifies this
      ensures Valid()
      ensures FirstPending(old(queue)).None? ==> job == None && queue == old(queue)
      ensures FirstPending(old(queue)).Some? ==>
                var k := FirstPending(old(queue)).value;
                job == Some(old(queue)[k].(status := Processing)) &&
                queue == old(queue)[k := job.value]
      ensures nextId == old(nextId) && processingInterval == old(processingInterval)
      ensures isProcessing == old(isProcessing)
    {
      var k := FirstPending(queue);
      if k.None? {
        job := None;
      } else {
        var updated := queue[k.value].(status := Processing);
        queue := queue[k.value := updated];
        job := Some(updated);
      }
    }

    /** `completeJob`: the job with that id is completed and stamped; an
        unknown id changes nothing. */
    method CompleteJob(jobId: JobId, now: Stamp)
      requires Valid()
      modifies this
      ensures Valid()
      ensures FindJob(old(queue), jobId).None? ==> queue == old(queue)
      ensures FindJob(old(queue), jobId).Some? ==>
                var k := FindJob(old(queue), jobId).value;
                queue == old(queue)[k := MarkCompleted(old(queue)[k], now)]
      ensures nextId == old(nextId) && processingInterval == old(processingInterval)
      ensures isProcessing == old(isProcessing)
    {
      var k := FindJob(queue, jobId);
      if k.Some? {
        queue := queue[k.value := MarkCompleted(queue[k.value], now)];
      }
    }

    /** `failJob`: the job with that id records the attempt and the error and
        goes back to pending, or to failed once its attempts reach the limit;
        it keeps its place in the list. An unknown id changes nothing. */
    method FailJob(jobId: JobId, error: string, now: Stamp)
      requires Valid()
      modifies this
      ensures Valid()
      ensures FindJob(old(queue), jobId).None? ==> queue == old(queue)
      ensures FindJob(old(queue), jobId).Some? ==>
                var k := FindJob(old(queue), jobId).value;
                queue == old(queue)[k := FailedAttempt(old(queue)[k], error, now)]
      ensures nextId == old(nextId) && processingInterval == old(processingInterval)
      ensures isProcessing == old(isProcessing)
    {
      var k := FindJob(queue, jobId);
      if k.Some? {
        queue := queue[k.value := FailedAttempt(queue[k.value], error, now)];
      }
    }

    /** `getStats`: the four counts sum to the total, which is the list length. */
    method GetStats() returns (stats: QueueStats)
      ensures stats == Stats(queue)
      ensures stats.pending + stats.processing + stats.completed + stats.failed == stats.total
      ensures stats.total == |queue|
    {
      stats := Stats(queue);
    }

    /** `getAllJobs`: the stored list, in stored order. */
    method GetAllJobs() returns (jobs: seq<EmailJob>)
      ensures jobs == queue
    {
      jobs := queue;
    }

    /** `clearCompleted`: completed jobs are dropped, the others kept in order. */
    method ClearCompleted()
      requires Valid()
      modifies this
      ensures Valid()
      ensures queue == RemoveCompleted(old(queue))
      ensures nextId == old(nextId) && processingInterval == old(processingInterval)
      ensures isProcessing == old(isProcessing)
    {
      RemoveCompletedSorted(queue);
      RemoveCompletedDistinct(queue);
      queue := RemoveCompleted(queue);
    }

    /** `startProcessing`: starts the timer unless one is already running. */
    method StartProcessing(intervalMs: nat := 5000)
      modifies this
      ensures old(processingInterval).Some? ==> processingInterval == old(processingInterval)
      ensures old(processingInterval).None? ==> processingInterval == Some(intervalMs)
      ensures queue == old(queue) && nextId == old(nextId) && isProcessing == old(isProcessing)
    {
      if processingInterval.Some? {
        return;
      }
      processingInterval := Some(intervalMs);
    }

    /** `stopProcessing`: stops the timer if one is running; otherwise a no-op. */
    method StopProcessing()
      modifies this
      ensures processingInterval == None
      ensures queue == old(queue) && nextId == old(nextId) && isProcessing == old(isProcessing)
    {
      if processingInterval.Some? {
        processingInterval := None;
      }
    }

    /** The part of a `processQueue` tick before its first `await`: a tick that
        finds another in flight does nothing; otherwise it raises the flag and
        takes the next job, lowering the flag again (the `finally`) when there
        is none. The returned job is the one in flight. */
    method BeginTick() returns (inFlight: Option<EmailJob>)
      requires Valid()
      modifies this
      ensures Valid()
      ensures old(isProcessing) ==> inFlight == None && isProcessing && queue == old(queue)
      ensures !old(isProcessing) ==>
                isProcessing == inFlight.Some? &&
                (FirstPending(old(queue)).None? ==> inFlight == None && queue == old(queue)) &&
                (FirstPending(old(queue)).Some? ==>
                   var k := FirstPending(old(queue)).value;
                   inFlight == Some(old(queue)[k].(status := Processing)) &&
                   queue == old(queue)[k := inFlight.value])
      ensures nextId == old(nextId) && processingInterval == old(processingInterval)
    {
      if isProcessing {
        inFlight := None;
        return;
      }
      isProcessing := true;
      inFlight := GetNextJob();
      if inFlight.None? {
        isProcessing := false;
      }
    }

    /** The rest of the tick, once the send of `job` has ended: an ok response
        completes the job, a rejected one fails it with the response body, and
        a thrown error leaves it processing. The flag is always lowered. */
    method EndTick(job: EmailJob, outcome: SendOutcome, now: Stamp)
      requires Valid()
      modifies this
      ensures Valid()
      ensures !isProcessing
      ensures outcome.Delivered? && FindJob(old(queue), job.id).Some? ==>
                var k := FindJob(old(queue), job.id).value;
                queue == old(queue)[k := MarkCompleted(old(queue)[k], now)]
      ensures outcome.Rejected? && FindJob(old(queue), job.id).Some? ==>
                var k := FindJob(old(queue), job.id).value;
                queue == old(queue)[k := FailedAttempt(old(queue)[k], outcome.body, now)]
      ensures outcome.Thrown? || FindJob(old(queue), job.id).None? ==> queue == old(queue)
      ensures nextId == old(nextId) && processingInterval == old(processingInterval)
    {
      match outcome {
        case Delivered => CompleteJob(job.id, now);
        case Rejected(body) => FailJob(job.id, body, now);
        case Thrown =>
      }
      isProcessing := false;
    }

    /** One whole `processQueue` tick with nothing interleaved: at most one
        job is taken and its outcome recorded, and the flag ends lowered. */
    method ProcessQueue(outcome: SendOutcome, now: Stamp)
      requires Valid()
      modifies this
      ensures Valid()
      ensures old(isProcessing) ==> queue == old(queue) && isProcessing
      ensures !old(isProcessing) ==> !isProcessing
      ensures !old(isProcessing) && FirstPending(old(queue)).None? ==> queue == old(queue)
      ensures !old(isProcessing) && FirstPending(old(queue)).Some? ==>
                var k := FirstPending(old(queue)).value;
                var taken := old(queue)[k].(status := Processing);
                queue == old(queue)[k := match outcome
                                         case Delivered => MarkCompleted(taken, now)
                                         case Rejected(body) => FailedAttempt(taken, body, now)
                                         case Thrown => taken]
      ensures nextId == old(nextId) && processingInterval == old(processingInterval)
    {
      var inFlight := BeginTick();
      if inFlight.Some? {
        ghost var k := FirstPending(old(queue)).value;
        ghost var mid := queue;
        assert FindJob(mid, inFlight.value.id) == Some(k) by {
          assert mid[k].id == inFlight.value.id;
          assert forall i :: 0 <= i < k ==> mid[i].id != mid[k].id;
        }
        EndTick(inFlight.value, outcome, now);
      }
    }
  }

  /** Jobs of priorities 1, 5, 1 added in that order are held as the
      priority-5 job, then the two priority-1 jobs in the order they were
      added; so the first dequeue takes the priority-5 job. */
  lemma PriorityScenario(a: EmailJob, b: EmailJob, c: EmailJob)
    requires a.priority == 1 && b.priority == 5 && c.priority == 1
    requires a.status == Pending && b.status == Pending && c.status == Pending
    ensures Insert(Insert(Insert([], a), b), c) == [b, a, c]
    ensures FirstPending([b, a, c]) == Some(0)
  {
    assert Insert([], a) == [a];
    assert Insert([a], b) == [b, a];
    assert Insert([a], c) == [a] + Insert([], c) == [a, c];
    assert Insert([b, a], c) == [b] + Insert([a], c);
  }
}
