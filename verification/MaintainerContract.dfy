/**
 The dedupe contract of memory-maintainer jobs: which attempts may exist side by side under one
 trigger identity. The validator walks the observed jobs; the rules say what it accepts.
 */
module MaintainerContract {
  import opened Options

  datatype JobStatus = Pending | Running | Succeeded | Failed | Cancelled

  datatype Observation = Observation(
    maintainer: bool, status: JobStatus, trigger: string, attempt: int, retryOfAttempt: Option<int>)

  datatype ContractError =
    | NamespaceRequired | NamespaceForbidden | TypeCollision | NonMaintainerDuplicate | LiveDuplicate
    | AttemptInvalid | FirstAttemptHasRetryOf | RetryRequiresFailedPredecessor

  const MAINTAINER_NAMESPACE := "memory-p1-v1.1:"

  predicate StartsWith(s: string, prefix: string) {
    prefix <= s
  }

  predicate Protected(status: JobStatus) {
    status.Pending? || status.Running? || status.Succeeded?
  }

  // ---------------------------------------------------------------- the rules

  predicate NamespaceOk(o: Observation) {
    o.maintainer == StartsWith(o.trigger, MAINTAINER_NAMESPACE)
  }

  function OfGroup(jobs: seq<Observation>, trigger: string): seq<Observation> {
    if jobs == [] then []
    else
      var front := OfGroup(jobs[..|jobs| - 1], trigger);
      var last := jobs[|jobs| - 1];
      if last.trigger == trigger then front + [last] else front
  }

  function Maintainers(group: seq<Observation>): seq<Observation> {
    if group == [] then []
    else
      var front := Maintainers(group[..|group| - 1]);
      var last := group[|group| - 1];
      if last.maintainer then front + [last] else front
  }

  predicate AttemptsDistinct(group: seq<Observation>) {
    && (forall i :: 0 <= i < |group| ==> group[i].attempt >= 1)
    && (forall i, j :: 0 <= i < j < |group| ==> group[i].attempt != group[j].attempt)
  }

  predicate AtMostOneProtected(group: seq<Observation>) {
    forall i, j :: 0 <= i < j < |group| ==> !(Protected(group[i].status) && Protected(group[j].status))
  }

  /** A first attempt retries nothing; a later one retries the failed attempt just before it. */
  predicate RetryOk(group: seq<Observation>, o: Observation) {
    && (o.attempt == 1 ==> o.retryOfAttempt.None?)
    && (o.attempt > 1 ==>
          && o.retryOfAttempt == Some(o.attempt - 1)
          && exists p :: p in group && p.attempt == o.attempt - 1 && p.status.Failed?)
  }

  predicate MaintainerRules(group: seq<Observation>) {
    && AtMostOneProtected(group)
    && AttemptsDistinct(group)
    && forall o :: o in group ==> RetryOk(group, o)
  }

  predicate GroupRules(group: seq<Observation>) {
    && MaintainerRules(Maintainers(group))
    && (forall i, j :: 0 <= i < |group| && 0 <= j < |group| ==> group[i].maintainer == group[j].maintainer)
    && |group| - |Maintainers(group)| <= 1
  }

  ghost predicate DedupeRules(jobs: seq<Observation>) {
    forall t: string {:trigger OfGroup(jobs, t)} :: GroupRules(OfGroup(jobs, t))
  }

  // ---------------------------------------------------------------- what the rules mean

  predicate HasAttempt(group: seq<Observation>, k: int) {
    exists o :: o in group && o.attempt == k
  }

  lemma {:induction false} EarlierAttemptsExist(group: seq<Observation>, o: Observation, k: int)
    requires MaintainerRules(group) && o in group && 1 <= k <= o.attempt
    ensures HasAttempt(group, k)
    ensures k < o.attempt ==> exists p :: p in group && p.attempt == k && p.status.Failed?
    decreases o.attempt - k
  {
    if k < o.attempt {
      assert RetryOk(group, o);
      var p :| p in group && p.attempt == o.attempt - 1 && p.status.Failed?;
      if k < p.attempt {
        EarlierAttemptsExist(group, p, k);
      }
    }
  }

  function AttemptSet(group: seq<Observation>): set<int> {
    set o | o in group :: o.attempt
  }

  lemma {:induction false} DistinctAttemptsCount(group: seq<Observation>)
    requires AttemptsDistinct(group)
    ensures |AttemptSet(group)| == |group|
  {
    if group == [] {
      assert AttemptSet(group) == {};
    } else {
      var front, last := group[..|group| - 1], group[|group| - 1];
      DistinctAttemptsCount(front);
      assert AttemptSet(group) == AttemptSet(front) + {last.attempt};
      forall o | o in front ensures o.attempt != last.attempt {
        var i :| 0 <= i < |front| && front[i] == o;
        assert group[i].attempt != group[|group| - 1].attempt;
      }
    }
  }

  /** The numbers 1..n. */
  function UpTo(n: nat): (r: set<int>)
    ensures forall k :: k in r <==> 1 <= k <= n
    ensures |r| == n
  {
    if n == 0 then {} else UpTo(n - 1) + {n}
  }

  lemma SubsetSize(a: set<int>, b: set<int>)
    requires a <= b
    ensures |a| <= |b|
  {
    assert |b - a| == |b| - |a|;
  }

  lemma {:induction false} AttemptIsBounded(group: seq<Observation>, k: int)
    requires MaintainerRules(group) && HasAttempt(group, k)
    ensures 1 <= k <= |group|
  {
    DistinctAttemptsCount(group);
    var o :| o in group && o.attempt == k;
    forall j | j in UpTo(k) ensures j in AttemptSet(group) {
      EarlierAttemptsExist(group, o, j);
    }
    SubsetSize(UpTo(k), AttemptSet(group));
  }

  lemma {:induction false} AttemptIsPresent(group: seq<Observation>, k: int)
    requires MaintainerRules(group) && 1 <= k <= |group|
    ensures HasAttempt(group, k)
  {
    DistinctAttemptsCount(group);
    if !HasAttempt(group, k) {
      forall a | a in AttemptSet(group) ensures a in UpTo(k - 1) {
        var o :| o in group && o.attempt == a;
        if a >= k {
          EarlierAttemptsExist(group, o, k);
        }
      }
      SubsetSize(AttemptSet(group), UpTo(k - 1));
    }
  }

  lemma {:induction false} EarlierHasFailed(group: seq<Observation>, o: Observation)
    requires MaintainerRules(group) && o in group && o.attempt < |group|
    ensures o.status.Failed?
  {
    AttemptIsPresent(group, |group|);
    var last :| last in group && last.attempt == |group|;
    EarlierAttemptsExist(group, last, o.attempt);
    var p :| p in group && p.attempt == o.attempt && p.status.Failed?;
    SameAttempt(group, o, p);
  }

  lemma {:induction false} SameAttempt(group: seq<Observation>, o: Observation, p: Observation)
    requires AttemptsDistinct(group) && o in group && p in group && o.attempt == p.attempt
    ensures o == p
  {
    var i :| 0 <= i < |group| && group[i] == o;
    var j :| 0 <= j < |group| && group[j] == p;
    assert i == j;
  }

  /** Under the rules a group of n attempts carries exactly the numbers 1..n, and all but the last failed. */
  lemma {:induction false} AttemptsAreConsecutive(group: seq<Observation>)
    requires MaintainerRules(group)
    ensures forall k :: HasAttempt(group, k) <==> 1 <= k <= |group|
    ensures forall o :: o in group && o.attempt < |group| ==> o.status.Failed?
  {
    forall k: int ensures HasAttempt(group, k) <==> 1 <= k <= |group| {
      if HasAttempt(group, k) {
        AttemptIsBounded(group, k);
      } else if 1 <= k <= |group| {
        AttemptIsPresent(group, k);
      }
    }
    forall o | o in group && o.attempt < |group| ensures o.status.Failed? {
      EarlierHasFailed(group, o);
    }
  }

  // ---------------------------------------------------------------- the validator

  function ProtectedCount(group: seq<Observation>): nat {
    if group == [] then 0
    else ProtectedCount(group[..|group| - 1]) + if Protected(group[|group| - 1].status) then 1 else 0
  }

  lemma {:induction false} ProtectedCounted(group: seq<Observation>)
    ensures ProtectedCount(group) == 0 <==> forall o :: o in group ==> !Protected(o.status)
    ensures ProtectedCount(group) <= 1 <==> AtMostOneProtected(group)
  {
    if group != [] {
      var front, last := group[..|group| - 1], group[|group| - 1];
      ProtectedCounted(front);
      assert forall o :: o in group <==> o in front || o == last;
      if Protected(last.status) && ProtectedCount(front) > 0 {
        var o :| o in front && Protected(o.status);
        var i :| 0 <= i < |front| && front[i] == o;
        assert Protected(group[i].status) && Protected(group[|group| - 1].status);
      }
      if ProtectedCount(front) > 1 {
        var i, j :| 0 <= i < j < |front| && Protected(front[i].status) && Protected(front[j].status);
        assert Protected(group[i].status) && Protected(group[j].status);
      }
    }
  }

  /** The rows of one identity that belong to maintainer jobs, their number of protected rows included. */
  method SplitGroup(group: seq<Observation>) returns (maintainers: seq<Observation>, protectedRows: nat)
    ensures maintainers == Maintainers(group) && protectedRows == ProtectedCount(maintainers)
  {
    maintainers, protectedRows := [], 0;
    for index := 0 to |group|
      invariant maintainers == Maintainers(group[..index])
      invariant protectedRows == ProtectedCount(maintainers)
    {
      assert group[..index + 1][..index] == group[..index];
      if group[index].maintainer {
        assert (maintainers + [group[index]])[..|maintainers|] == maintainers;
        maintainers := maintainers + [group[index]];
        if Protected(group[index].status) { protectedRows := protectedRows + 1; }
      }
    }
    assert group[..|group|] == group;
  }

  /** The index holds one row of the group for every attempt number in it. */
  ghost predicate IndexOf(group: seq<Observation>, byAttempt: map<int, Observation>) {
    && (forall k :: k in byAttempt ==> byAttempt[k] in group && byAttempt[k].attempt == k)
    && (forall o :: o in group ==> o.attempt in byAttempt)
  }

  lemma {:induction false} DistinctNext(before: seq<Observation>, job: Observation, byAttempt: map<int, Observation>)
    requires IndexOf(before, byAttempt)
    ensures IndexOf(before + [job], byAttempt[job.attempt := job])
    ensures AttemptsDistinct(before + [job]) <==>
            AttemptsDistinct(before) && job.attempt >= 1 && job.attempt !in byAttempt
  {
    var after := before + [job];
    assert after[|before|] == job;
    assert forall i :: 0 <= i < |before| ==> after[i] == before[i];
    if job.attempt in byAttempt {
      var i :| 0 <= i < |before| && before[i] == byAttempt[job.attempt];
      assert after[i].attempt == after[|before|].attempt;
    }
  }

  lemma {:induction false} NextTaken(group: seq<Observation>, index: nat)
    requires index < |group|
    ensures group[..index + 1] == group[..index] + [group[index]]
  {
  }

  method IndexAttempts(group: seq<Observation>) returns (errors: seq<ContractError>, byAttempt: map<int, Observation>)
    ensures errors == [] <==> AttemptsDistinct(group)
    ensures IndexOf(group, byAttempt)
  {
    errors, byAttempt := [], map[];
    for index := 0 to |group|
      invariant errors == [] <==> AttemptsDistinct(group[..index])
      invariant IndexOf(group[..index], byAttempt)
    {
      var job := group[index];
      NextTaken(group, index);
      DistinctNext(group[..index], job, byAttempt);
      if job.attempt < 1 || job.attempt in byAttempt {
        errors := errors + [AttemptInvalid];
      }
      byAttempt := byAttempt[job.attempt := job];
    }
    AllTaken(group);
  }

  lemma {:induction false} OnlyOneHolder(group: seq<Observation>, byAttempt: map<int, Observation>)
    requires AttemptsDistinct(group) && IndexOf(group, byAttempt)
    ensures forall p :: p in group ==> byAttempt[p.attempt] == p
  {
    forall p | p in group ensures byAttempt[p.attempt] == p {
      SameAttempt(group, p, byAttempt[p.attempt]);
    }
  }

  /** What the check of one attempt finds, by the index. */
  predicate RetryFound(byAttempt: map<int, Observation>, o: Observation) {
    && (o.attempt == 1 ==> o.retryOfAttempt.None?)
    && (o.attempt > 1 ==>
          && o.retryOfAttempt == Some(o.attempt - 1)
          && o.attempt - 1 in byAttempt && byAttempt[o.attempt - 1].status.Failed?)
  }

  lemma {:induction false} RetryDecided(group: seq<Observation>, byAttempt: map<int, Observation>, o: Observation)
    requires AttemptsDistinct(group) && IndexOf(group, byAttempt)
    ensures RetryFound(byAttempt, o) <==> RetryOk(group, o)
  {
    OnlyOneHolder(group, byAttempt);
    if o.attempt > 1 && o.attempt - 1 in byAttempt {
      assert byAttempt[o.attempt - 1] in group;
    }
  }

  lemma {:induction false} RetriesDecided(group: seq<Observation>, byAttempt: map<int, Observation>)
    requires AttemptsDistinct(group) && IndexOf(group, byAttempt)
    ensures (forall i :: 0 <= i < |group| ==> RetryFound(byAttempt, group[i])) <==> forall o :: o in group ==> RetryOk(group, o)
  {
    forall o | o in group ensures RetryFound(byAttempt, o) <==> RetryOk(group, o) {
      RetryDecided(group, byAttempt, o);
    }
    if forall i :: 0 <= i < |group| ==> RetryFound(byAttempt, group[i]) {
      forall o | o in group ensures RetryOk(group, o) {
        var i :| 0 <= i < |group| && group[i] == o;
      }
    }
  }

  method CheckRetries(group: seq<Observation>, byAttempt: map<int, Observation>) returns (errors: seq<ContractError>)
    requires IndexOf(group, byAttempt)
    ensures AttemptsDistinct(group) ==> (errors == [] <==> forall o :: o in group ==> RetryOk(group, o))
  {
    errors := [];
    for index := 0 to |group|
      invariant errors == [] <==> forall i :: 0 <= i < index ==> RetryFound(byAttempt, group[i])
    {
      var job := group[index];
      if job.attempt == 1 && job.retryOfAttempt.Some? {
        errors := errors + [FirstAttemptHasRetryOf];
      }
      if job.attempt > 1 {
        if || job.retryOfAttempt != Some(job.attempt - 1)
           || job.attempt - 1 !in byAttempt
           || !byAttempt[job.attempt - 1].status.Failed? {
          errors := errors + [RetryRequiresFailedPredecessor];
        }
      }
    }
    if AttemptsDistinct(group) { RetriesDecided(group, byAttempt); }
  }

  method ValidateAttempts(group: seq<Observation>) returns (errors: seq<ContractError>)
    ensures errors == [] <==> AttemptsDistinct(group) && forall o :: o in group ==> RetryOk(group, o)
  {
    var indexErrors, byAttempt := IndexAttempts(group);
    var retryErrors := CheckRetries(group, byAttempt);
    errors := indexErrors + retryErrors;
  }

  method ValidateGroup(group: seq<Observation>) returns (errors: seq<ContractError>)
    ensures errors == [] <==> GroupRules(group)
  {
    errors := [];
    var maintainers, protectedRows := SplitGroup(group);
    var others := |group| - |maintainers|;
    MaintainersCounted(group);
    if others > 0 && |maintainers| > 0 { errors := errors + [TypeCollision]; }
    if others > 1 { errors := errors + [NonMaintainerDuplicate]; }
    ProtectedCounted(maintainers);
    if protectedRows > 1 { errors := errors + [LiveDuplicate]; }
    var attempts := ValidateAttempts(maintainers);
    errors := errors + attempts;
  }

  lemma {:induction false} MaintainersCounted(group: seq<Observation>)
    ensures |Maintainers(group)| <= |group|
    ensures |Maintainers(group)| == 0 <==> forall o :: o in group ==> !o.maintainer
    ensures |Maintainers(group)| == |group| <==> forall o :: o in group ==> o.maintainer
    ensures (|Maintainers(group)| == 0 || |Maintainers(group)| == |group|) <==>
            forall i, j :: 0 <= i < |group| && 0 <= j < |group| ==> group[i].maintainer == group[j].maintainer
  {
    if group != [] {
      MaintainersCounted(group[..|group| - 1]);
      assert forall o :: o in group <==> o in group[..|group| - 1] || o == group[|group| - 1];
      if forall i, j :: 0 <= i < |group| && 0 <= j < |group| ==> group[i].maintainer == group[j].maintainer {
        forall o | o in group ensures o.maintainer == group[0].maintainer {
          var i :| 0 <= i < |group| && group[i] == o;
        }
      }
      if (forall o :: o in group ==> o.maintainer) || (forall o :: o in group ==> !o.maintainer) {
        forall i, j | 0 <= i < |group| && 0 <= j < |group| ensures group[i].maintainer == group[j].maintainer {
          assert group[i] in group && group[j] in group;
        }
      }
    }
  }

  function GroupAt(byIdentity: map<string, seq<Observation>>, trigger: string): seq<Observation> {
    if trigger in byIdentity then byIdentity[trigger] else []
  }

  /** The map holds the group of every trigger, and the list the triggers it holds. */
  ghost predicate GroupedBy(jobs: seq<Observation>, byIdentity: map<string, seq<Observation>>, order: seq<string>) {
    && (forall t: string {:trigger GroupAt(byIdentity, t)} :: GroupAt(byIdentity, t) == OfGroup(jobs, t))
    && forall t :: t in byIdentity <==> t in order
  }

  /** Adds a job to the group of its trigger. */
  function Placed(byIdentity: map<string, seq<Observation>>, job: Observation): map<string, seq<Observation>> {
    byIdentity[job.trigger := GroupAt(byIdentity, job.trigger) + [job]]
  }

  /** Adds a trigger that has no group yet. */
  function Listed(order: seq<string>, byIdentity: map<string, seq<Observation>>, job: Observation): seq<string> {
    if job.trigger in byIdentity then order else order + [job.trigger]
  }

  lemma {:induction false} OfGroupAppend(jobs: seq<Observation>, job: Observation, trigger: string)
    ensures OfGroup(jobs + [job], trigger) == OfGroup(jobs, trigger) + (if job.trigger == trigger then [job] else [])
  {
    assert (jobs + [job])[..|jobs|] == jobs;
  }

  lemma {:induction false} PlacedAt(jobs: seq<Observation>, job: Observation, byIdentity: map<string, seq<Observation>>, trigger: string)
    requires GroupAt(byIdentity, trigger) == OfGroup(jobs, trigger)
    ensures GroupAt(Placed(byIdentity, job), trigger) == OfGroup(jobs + [job], trigger)
  {
    OfGroupAppend(jobs, job, trigger);
  }

  lemma {:induction false} PlacedGroups(jobs: seq<Observation>, job: Observation, byIdentity: map<string, seq<Observation>>, order: seq<string>)
    requires GroupedBy(jobs, byIdentity, order)
    ensures GroupedBy(jobs + [job], Placed(byIdentity, job), Listed(order, byIdentity, job))
  {
    forall t: string ensures GroupAt(Placed(byIdentity, job), t) == OfGroup(jobs + [job], t) {
      PlacedAt(jobs, job, byIdentity, t);
    }
  }

  lemma {:induction false} NextGrouped(jobs: seq<Observation>, index: nat, byIdentity: map<string, seq<Observation>>,
                                       order: seq<string>)
    requires index < |jobs| && GroupedBy(jobs[..index], byIdentity, order)
    ensures GroupedBy(jobs[..index + 1], Placed(byIdentity, jobs[index]),
                      Listed(order, byIdentity, jobs[index]))
  {
    assert jobs[..index + 1] == jobs[..index] + [jobs[index]];
    PlacedGroups(jobs[..index], jobs[index], byIdentity, order);
  }

  function NamespaceErrors(job: Observation): (errors: seq<ContractError>)
    ensures errors == [] <==> NamespaceOk(job)
  {
    (if job.maintainer && !StartsWith(job.trigger, MAINTAINER_NAMESPACE) then [NamespaceRequired] else [])
    + if !job.maintainer && StartsWith(job.trigger, MAINTAINER_NAMESPACE) then [NamespaceForbidden] else []
  }

  lemma {:induction false} AllTaken(jobs: seq<Observation>)
    ensures jobs[..|jobs|] == jobs
  {
  }

  lemma {:induction false} NothingGrouped(jobs: seq<Observation>)
    ensures GroupedBy(jobs[..0], map[], [])
  {
    forall t: string ensures GroupAt(map[], t) == OfGroup(jobs[..0], t) {
    }
  }

  /** The errors of the first n jobs, in order. */
  function NamespacesErrors(jobs: seq<Observation>, n: nat): (errors: seq<ContractError>)
    requires n <= |jobs|
    ensures errors == [] <==> forall i :: 0 <= i < n ==> NamespaceOk(jobs[i])
  {
    if n == 0 then [] else NamespacesErrors(jobs, n - 1) + NamespaceErrors(jobs[n - 1])
  }

  /** The first loop: namespace errors and the groups. */
  method GroupJobs(jobs: seq<Observation>)
    returns (errors: seq<ContractError>, byIdentity: map<string, seq<Observation>>, order: seq<string>)
    ensures errors == [] <==> forall i :: 0 <= i < |jobs| ==> NamespaceOk(jobs[i])
    ensures GroupedBy(jobs, byIdentity, order)
  {
    errors, byIdentity, order := [], map[], [];
    NothingGrouped(jobs);
    for index := 0 to |jobs|
      invariant errors == NamespacesErrors(jobs, index)
      invariant GroupedBy(jobs[..index], byIdentity, order)
    {
      var job := jobs[index];
      NextGrouped(jobs, index, byIdentity, order);
      errors := errors + NamespaceErrors(job);
      order := Listed(order, byIdentity, job);
      byIdentity := Placed(byIdentity, job);
    }
    AllTaken(jobs);
  }

  predicate GroupsOk(jobs: seq<Observation>, order: seq<string>, n: nat)
    requires n <= |order|
  {
    forall i :: 0 <= i < n ==> GroupRules(OfGroup(jobs, order[i]))
  }

  lemma {:induction false} GroupsDecided(jobs: seq<Observation>, byIdentity: map<string, seq<Observation>>, order: seq<string>)
    requires GroupedBy(jobs, byIdentity, order)
    ensures GroupsOk(jobs, order, |order|) <==> DedupeRules(jobs)
  {
    if GroupsOk(jobs, order, |order|) {
      forall t: string ensures GroupRules(OfGroup(jobs, t)) {
        assert GroupAt(byIdentity, t) == OfGroup(jobs, t);
        if t in byIdentity {
          var i :| 0 <= i < |order| && order[i] == t;
        } else {
          EmptyGroupOk();
        }
      }
    }
  }

  /** The second loop: the rules of every group. */
  method ValidateGroups(jobs: seq<Observation>, byIdentity: map<string, seq<Observation>>, order: seq<string>)
    returns (errors: seq<ContractError>)
    requires GroupedBy(jobs, byIdentity, order)
    ensures errors == [] <==> DedupeRules(jobs)
  {
    errors := [];
    for index := 0 to |order|
      invariant errors == [] <==> GroupsOk(jobs, order, index)
    {
      var found := ValidateGroup(GroupAt(byIdentity, order[index]));
      errors := errors + found;
    }
    GroupsDecided(jobs, byIdentity, order);
  }

  /** The validator reports nothing exactly when every identity is in its namespace and every group obeys the rules. */
  method ValidateJobDedupe(jobs: seq<Observation>) returns (errors: seq<ContractError>)
    ensures errors == [] <==> (forall o :: o in jobs ==> NamespaceOk(o)) && DedupeRules(jobs)
  {
    var named, byIdentity, order := GroupJobs(jobs);
    var grouped := ValidateGroups(jobs, byIdentity, order);
    errors := named + grouped;
    assert forall o :: o in jobs <==> exists i :: 0 <= i < |jobs| && jobs[i] == o;
  }

  lemma EmptyGroupOk()
    ensures GroupRules([])
  {
  }
}
