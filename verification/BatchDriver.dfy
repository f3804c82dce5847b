/** The batch driver: it terminates, and the checker accepts every trace it leaves. */
module BatchDriver {
  import opened Requests
  import opened BatchTrace
  import opened Counting

  datatype Slot = Idle | Live(job: nat, position: nat, generated: nat)

  /** What the driver demands of its requests. */
  predicate JobsOk(jobs: seq<Job>) {
    forall j | j in jobs :: j.prompt > 0 && j.outputs > 0
  }

  /** A job under way: positions and samples say the same about it. */
  predicate UnderWay(jobs: seq<Job>, at: Progress, s: Slot)
    requires Sized(jobs, at)
  {
    s.Live? ==>
      && s.job < |jobs| && s.position == at.positions[s.job] && s.generated == at.samples[s.job]
      && s.generated < jobs[s.job].outputs
      && (if s.generated == 0 then
            s.position < jobs[s.job].prompt else s.position == jobs[s.job].prompt + s.generated - 1)
  }

  predicate JobDone(jobs: seq<Job>, at: Progress, r: nat)
    requires Sized(jobs, at) && r < |jobs|
  {
    at.positions[r] == jobs[r].prompt + jobs[r].outputs - 1 && at.samples[r] == jobs[r].outputs
  }

  ghost predicate Distinct(live: seq<Slot>) {
    forall a, b | 0 <= a < b < |live| && live[a].Live? && live[b].Live? :: live[a].job != live[b].job
  }

  /** Every job is still to be admitted, in one slot, or done. */
  ghost predicate Tracks(jobs: seq<Job>, live: seq<Slot>, at: Progress, admitted: nat, done: set<nat>) {
    && Sized(jobs, at) && admitted <= |jobs|
    && (forall a | 0 <= a < |live| ::
          UnderWay(jobs, at, live[a]) && (live[a].Live? ==> live[a].job < admitted && live[a].job !in done))
    && Distinct(live)
    && (forall r | r in done :: r < admitted && JobDone(jobs, at, r))
    && (forall r: nat | r < admitted && r !in done :: exists a | 0 <= a < |live| :: live[a].Live? && live[a].job == r)
    && (forall r: nat | admitted <= r < |jobs| :: at.positions[r] == 0 && at.samples[r] == 0)
  }

  /** Idle slots mean that nobody waits. */
  ghost predicate Busy(jobs: seq<Job>, live: seq<Slot>, admitted: nat) {
    admitted < |jobs| ==> forall a | 0 <= a < |live| :: live[a].Live?
  }

  // -------------------------------------------------------------- one batch

  /** The member a live slot contributes with `room` tokens of budget left. */
  function MemberFor(jobs: seq<Job>, s: Slot, resident: nat, room: nat): Member
    requires s.Live? && s.job < |jobs|
  {
    var prompt := jobs[s.job].prompt;
    var tokens := if s.position < prompt then LeastOf(room, prompt - s.position) else 1;
    Member(s.job, resident, s.position, tokens, s.position + tokens >= prompt)
  }

  /** Slot by slot, the batch takes live jobs until the budget is used up. */
  ghost predicate BatchOf(jobs: seq<Job>, live: seq<Slot>, budget: nat, members: seq<Member>) {
    && (forall i: nat | i < |members| :: MemberDue(jobs, live, budget, members, i))
    && (forall i, j | 0 <= i < j < |members| :: members[i].resident < members[j].resident)
  }

  ghost predicate MemberDue(jobs: seq<Job>, live: seq<Slot>, budget: nat, members: seq<Member>, i: nat)
    requires i < |members|
  {
    && TokenSum(members[..i]) < budget && members[i].resident < |live| && live[members[i].resident].Live?
    && live[members[i].resident].job < |jobs|
    && members[i] == MemberFor(jobs, live[members[i].resident], members[i].resident, budget - TokenSum(members[..i]))
  }

  /** The members are the first `n` slots' live ones. */
  ghost predicate Covers(live: seq<Slot>, members: seq<Member>, n: nat) {
    && n <= |live| && (forall i | 0 <= i < |members| :: members[i].resident < n)
    && (forall a: nat | a < n && live[a].Live? :: Contributes(members, a))
  }

  ghost predicate Contributes(members: seq<Member>, a: nat) {
    exists i | 0 <= i < |members| :: members[i].resident == a
  }

  /** There the slots or the budget end. */
  ghost predicate Filled(live: seq<Slot>, budget: nat, members: seq<Member>, n: nat) {
    Covers(live, members, n) && (n == |live| || TokenSum(members) == budget)
  }

  lemma CoversNext(live: seq<Slot>, members: seq<Member>, n: nat, m: Member)
    requires Covers(live, members, n) && n < |live|
    ensures live[n].Idle? ==> Covers(live, members, n + 1)
    ensures m.resident == n ==> Covers(live, members + [m], n + 1)
  {
    if m.resident == n {
      var more := members + [m];
      assert more[|members|].resident == n;
      forall a: nat | a < n && live[a].Live? ensures Contributes(more, a) {
        var i :| 0 <= i < |members| && members[i].resident == a;
        assert more[i].resident == a;
      }
    }
  }

  ghost predicate JobsInRange(jobs: seq<Job>, live: seq<Slot>) {
    forall a | 0 <= a < |live| && live[a].Live? :: live[a].job < |jobs|
  }

  method BuildBatch(jobs: seq<Job>, live: seq<Slot>, budget: nat) returns (members: seq<Member>, tokens: nat)
    requires JobsInRange(jobs, live) && budget > 0
    ensures BatchOf(jobs, live, budget, members) && tokens == TokenSum(members) <= budget
    ensures (exists a | 0 <= a < |live| :: live[a].Live?) ==> members != []
    ensures exists n: nat :: Filled(live, budget, members, n)
  {
    hide Covers, BatchOf;
    members, tokens := [], 0;
    var slot := 0;
    CoversNothing(jobs, live, budget);
    while slot < |live| && tokens < budget
      invariant slot <= |live| && tokens == TokenSum(members) <= budget
      invariant BatchOf(jobs, live, budget, members)
      invariant Covers(live, members, slot)
      invariant members == [] ==> tokens == 0 && forall a | 0 <= a < slot :: !live[a].Live?
    {
      if live[slot].Live? {
        var m := MemberFor(jobs, live[slot], slot, budget - tokens);
        CoversBelow(live, members, slot);
        BatchMore(jobs, live, budget, members, m, slot);
        CoversNext(live, members, slot, m);
        tokens := tokens + m.tokens;
        members := members + [m];
      } else {
        CoversNext(live, members, slot, Member(0, 0, 0, 0, false));
      }
      slot := slot + 1;
    }
    assert Filled(live, budget, members, slot);
  }

  lemma CoversNothing(jobs: seq<Job>, live: seq<Slot>, budget: nat)
    ensures Covers(live, [], 0) && BatchOf(jobs, live, budget, [])
  {
  }

  lemma CoversBelow(live: seq<Slot>, members: seq<Member>, n: nat)
    requires Covers(live, members, n)
    ensures forall i | 0 <= i < |members| :: members[i].resident < n
  {
  }

  lemma BatchMore(jobs: seq<Job>, live: seq<Slot>, budget: nat, members: seq<Member>, m: Member, slot: nat)
    requires BatchOf(jobs, live, budget, members) && TokenSum(members) < budget
    requires slot < |live| && live[slot].Live? && live[slot].job < |jobs|
    requires m == MemberFor(jobs, live[slot], slot, budget - TokenSum(members))
    requires forall i | 0 <= i < |members| :: members[i].resident < slot
    ensures BatchOf(jobs, live, budget, members + [m])
    ensures TokenSum(members + [m]) == TokenSum(members) + m.tokens <= budget
  {
    hide MemberDue, TokenSum;
    assert m.resident == slot;
    var more := members + [m];
    assert more[..|members|] == members;
    forall i: nat | i < |more| ensures MemberDue(jobs, live, budget, more, i) {
      if i < |members| {
        DueStays(jobs, live, budget, members, m, i);
      } else {
        LastDue(jobs, live, budget, members, m);
      }
    }
    SumMore(members, m);
    LastWithin(jobs, live, budget, members, m, slot);
  }

  lemma DueStays(jobs: seq<Job>, live: seq<Slot>, budget: nat, members: seq<Member>, m: Member, i: nat)
    requires i < |members| && MemberDue(jobs, live, budget, members, i)
    ensures MemberDue(jobs, live, budget, members + [m], i)
  {
    assert (members + [m])[..i] == members[..i];
  }

  lemma LastDue(jobs: seq<Job>, live: seq<Slot>, budget: nat, members: seq<Member>, m: Member)
    requires TokenSum(members) < budget && m.resident < |live| && live[m.resident].Live?
    requires live[m.resident].job < |jobs|
    requires m == MemberFor(jobs, live[m.resident], m.resident, budget - TokenSum(members))
    ensures MemberDue(jobs, live, budget, members + [m], |members|)
  {
    assert (members + [m])[..|members|] == members;
  }

  lemma SumMore(members: seq<Member>, m: Member)
    ensures TokenSum(members + [m]) == TokenSum(members) + m.tokens
  {
    assert (members + [m])[..|members|] == members;
  }

  lemma LastWithin(jobs: seq<Job>, live: seq<Slot>, budget: nat, members: seq<Member>, m: Member, slot: nat)
    requires TokenSum(members) < budget && slot < |live| && live[slot].Live? && live[slot].job < |jobs|
    requires m == MemberFor(jobs, live[slot], slot, budget - TokenSum(members))
    ensures TokenSum(members) + m.tokens <= budget
  {
  }

  /** The checker's view of a batch is in order. */
  lemma BatchGeometry(jobs: seq<Job>, live: seq<Slot>, budget: nat, members: seq<Member>)
    requires BatchOf(jobs, live, budget, members) && Distinct(live) && TokenSum(members) <= budget
    requires members != [] && forall i | 0 <= i < |members| :: members[i].tokens > 0
    ensures Geometry(Event(TokenSum(members), members), budget)
  {
    hide BatchOf, Distinct;
    forall i, j | 0 <= i < j < |members|
      ensures members[i].resident != members[j].resident && members[i].job != members[j].job
    {
      MembersApart(jobs, live, budget, members, i, j);
    }
  }

  lemma MembersApart(jobs: seq<Job>, live: seq<Slot>, budget: nat, members: seq<Member>, i: nat, j: nat)
    requires BatchOf(jobs, live, budget, members) && Distinct(live) && i < j < |members|
    ensures members[i].resident != members[j].resident && members[i].job != members[j].job
  {
    hide TokenSum;
    assert MemberDue(jobs, live, budget, members, i) && MemberDue(jobs, live, budget, members, j);
    assert members[i].resident < members[j].resident;
  }

  /** A slot after its member has run. */
  function After(jobs: seq<Job>, s: Slot, m: Member): Slot
    requires s.Live? && s.job < |jobs|
  {
    if !m.sample then Live(s.job, s.position + m.tokens, s.generated)
    else if s.generated + 1 == jobs[s.job].outputs then Idle
    else Live(s.job, s.position + m.tokens, s.generated + 1)
  }

  function Completed(jobs: seq<Job>, s: Slot, m: Member): bool
    requires s.Live? && s.job < |jobs|
  {
    m.sample && s.generated + 1 == jobs[s.job].outputs
  }

  /** One member: the checker accepts it, and the books still balance. */
  lemma MemberKeeps(jobs: seq<Job>, live: seq<Slot>, at: Progress, admitted: nat, done: set<nat>, resident: nat,
                    room: nat)
    requires JobsOk(jobs) && Tracks(jobs, live, at, admitted, done) && resident < |live| && live[resident].Live?
    requires room > 0
    ensures live[resident].job < |jobs|
    ensures var s := live[resident];
      var m := MemberFor(jobs, s, resident, room);
      && MemberOk(jobs, at, room, m) && m.tokens > 0
      && Tracks(jobs, live[resident := After(jobs, s, m)], Advanced(at, m), admitted,
        if Completed(jobs, s, m) then done + {s.job} else done)
  {
    var s := live[resident];
    assert UnderWay(jobs, at, s);
    assert jobs[s.job] in jobs;
    var m := MemberFor(jobs, s, resident, room);
    var next, more := Advanced(at, m), live[resident := After(jobs, s, m)];
    var all := if Completed(jobs, s, m) then done + {s.job} else done;
    forall a | 0 <= a < |more|
      ensures UnderWay(jobs, next, more[a])
      ensures more[a].Live? ==> more[a].job < admitted && more[a].job !in all
    {
      assert UnderWay(jobs, at, live[a]);
    }
    forall r: nat | r < admitted && r !in all ensures exists a | 0 <= a < |more| :: more[a].Live? && more[a].job == r {
      var a :| 0 <= a < |live| && live[a].Live? && live[a].job == r;
      assert more[a].Live? && more[a].job == r;
    }
  }

  // --------------------------------------------------------------- progress

  /** Positions still to be run. */
  function Remaining(jobs: seq<Job>, at: Progress, n: nat): int
    requires Sized(jobs, at) && n <= |jobs|
  {
    if n == 0 then 0
    else Remaining(jobs, at, n - 1) + jobs[n - 1].prompt + jobs[n - 1].outputs - 1 - at.positions[n - 1]
  }

  lemma {:induction false} AdvanceLeaves(jobs: seq<Job>, at: Progress, m: Member, n: nat)
    requires Sized(jobs, at) && m.job < |jobs| && m.position == at.positions[m.job] && n <= |jobs|
    ensures Remaining(jobs, Advanced(at, m), n) == Remaining(jobs, at, n) - (if m.job < n then m.tokens else 0)
    decreases n
  {
    if n > 0 {
      AdvanceLeaves(jobs, at, m, n - 1);
    }
  }

  lemma {:induction false} NothingOwed(jobs: seq<Job>, live: seq<Slot>, at: Progress, admitted: nat, done: set<nat>,
                                       n: nat)
    requires JobsOk(jobs) && Tracks(jobs, live, at, admitted, done) && n <= |jobs|
    ensures Remaining(jobs, at, n) >= 0
    decreases n
  {
    if n > 0 {
      NothingOwed(jobs, live, at, admitted, done, n - 1);
      var r: nat := n - 1;
      assert jobs[r] in jobs;
      if r < admitted && r !in done {
        var a :| 0 <= a < |live| && live[a].Live? && live[a].job == r;
        assert UnderWay(jobs, at, live[a]);
      }
    }
  }

  /** The checker has accepted the first `i` members and stands at `next`. */
  ghost predicate Checked(jobs: seq<Job>, at: Progress, budget: nat, members: seq<Member>, i: nat, next: Progress) {
    && i <= |members| && Sized(jobs, at) && Sized(jobs, next)
    && TakeMembers(jobs, at, budget, members[..i]) == Some(next)
    && Remaining(jobs, next, |jobs|) == Remaining(jobs, at, |jobs|) - TokenSum(members[..i])
    && forall j | 0 <= j < i :: members[j].tokens > 0
  }

  /** The slots of the members still to be run are as they were; the ones that fell idle are listed once. */
  ghost predicate Framed(live: seq<Slot>, members: seq<Member>, i: nat, after: seq<Slot>, retired: seq<nat>) {
    && i <= |members| && |after| == |live|
    && (forall j | i <= j < |members| && members[j].resident < |live| ::
          after[members[j].resident] == live[members[j].resident])
    && (forall a: nat | a < |live| :: after[a].Live? || !live[a].Live? || a in retired)
    && (forall a | a in retired :: a < |live| && after[a] == Idle && exists j | 0 <= j < i :: members[j].resident == a)
    && NoRepeat(retired)
  }

  lemma CheckedMore(jobs: seq<Job>, at: Progress, budget: nat, members: seq<Member>, i: nat, next: Progress)
    requires Checked(jobs, at, budget, members, i, next) && i < |members|
    requires MemberOk(jobs, next, budget - TokenSum(members[..i]), members[i])
    ensures Checked(jobs, at, budget, members, i + 1, Advanced(next, members[i]))
  {
    assert members[..i + 1][..i] == members[..i];
    AdvanceLeaves(jobs, next, members[i], |jobs|);
  }

  lemma FramedMore(jobs: seq<Job>, live: seq<Slot>, members: seq<Member>, i: nat, after: seq<Slot>, retired: seq<nat>)
    requires Framed(live, members, i, after, retired) && i < |members|
    requires forall k, j | 0 <= k < j < |members| :: members[k].resident < members[j].resident
    requires members[i].resident < |live| && live[members[i].resident].Live? && live[members[i].resident].job < |jobs|
    ensures |after| == |live|
    ensures var s := after[members[i].resident];
      && s == live[members[i].resident]
      && Framed(live, members, i + 1, after[members[i].resident := After(jobs, s, members[i])],
                if Completed(jobs, s, members[i]) then retired + [members[i].resident] else retired)
  {
    var s, a := after[members[i].resident], members[i].resident;
    var more := if Completed(jobs, s, members[i]) then retired + [a] else retired;
    var m := i + 1;
    forall b | b in more ensures exists j | 0 <= j < m :: members[j].resident == b {
      if b == a { assert members[i].resident == b; }
    }
  }

  lemma BatchMember(jobs: seq<Job>, live: seq<Slot>, budget: nat, members: seq<Member>, i: nat)
    requires BatchOf(jobs, live, budget, members) && i < |members|
    ensures members[i].resident < |live| && live[members[i].resident].Live? && live[members[i].resident].job < |jobs|
    ensures TokenSum(members[..i]) < budget
    ensures members[i]
      == MemberFor(jobs, live[members[i].resident], members[i].resident, budget - TokenSum(members[..i]))
    ensures forall k, j | 0 <= k < j < |members| :: members[k].resident < members[j].resident
  {
    assert MemberDue(jobs, live, budget, members, i);
  }

  lemma ApplyStart(jobs: seq<Job>, live: seq<Slot>, at: Progress, budget: nat, members: seq<Member>)
    requires Sized(jobs, at)
    ensures Checked(jobs, at, budget, members, 0, at) && Framed(live, members, 0, live, [])
  {
  }

  /** Runs a batch's members against the slots; the checker keeps up, member by member. */
  method ApplyBatch(jobs: seq<Job>, live: seq<Slot>, ghost at: Progress, ghost admitted: nat, ghost done: set<nat>,
                    completed: nat,
                    budget: nat, members: seq<Member>)
      returns (after: seq<Slot>, ghost next: Progress, ghost all: set<nat>, finished: nat, retired: seq<nat>)
    requires JobsOk(jobs) && Tracks(jobs, live, at, admitted, done) && |done| == completed
    requires BatchOf(jobs, live, budget, members)
    ensures Tracks(jobs, after, next, admitted, all) && |all| == finished
    ensures Checked(jobs, at, budget, members, |members|, next) && Framed(live, members, |members|, after, retired)
  {
    hide Tracks, MemberOk, Checked, Framed, BatchOf, MemberFor, After, Completed, Advanced;
    after, next, all, finished, retired := live, at, done, completed, [];
    TracksSized(jobs, live, at, admitted, done);
    ApplyStart(jobs, live, at, budget, members);
    for i := 0 to |members|
      invariant Tracks(jobs, after, next, admitted, all) && |all| == finished
      invariant Checked(jobs, at, budget, members, i, next) && Framed(live, members, i, after, retired)
    {
      var m := members[i];
      BatchMember(jobs, live, budget, members, i);
      FramedMore(jobs, live, members, i, after, retired);
      var s := after[m.resident];
      MemberKeeps(jobs, after, next, admitted, all, m.resident, budget - TokenSum(members[..i]));
      JobCounted(jobs, after, next, admitted, all, m.resident);
      CheckedMore(jobs, at, budget, members, i, next);
      if Completed(jobs, s, m) {
        finished := finished + 1;
        all := all + {s.job};
        retired := retired + [m.resident];
      }
      next := Advanced(next, m);
      after := after[m.resident := After(jobs, s, m)];
    }
  }

  lemma TracksSized(jobs: seq<Job>, live: seq<Slot>, at: Progress, admitted: nat, done: set<nat>)
    requires Tracks(jobs, live, at, admitted, done)
    ensures Sized(jobs, at) && admitted <= |jobs|
  {
  }

  lemma JobCounted(jobs: seq<Job>, live: seq<Slot>, at: Progress, admitted: nat, done: set<nat>, a: nat)
    requires Tracks(jobs, live, at, admitted, done) && a < |live| && live[a].Live?
    ensures Sized(jobs, at) && live[a].job < |jobs| && live[a].job !in done
    ensures live[a].position == at.positions[live[a].job]
  {
    assert UnderWay(jobs, at, live[a]);
  }

  // ---------------------------------------------------------------- the run

  lemma AdmitKeeps(jobs: seq<Job>, live: seq<Slot>, at: Progress, admitted: nat, done: set<nat>, slot: nat)
    requires JobsOk(jobs) && Tracks(jobs, live, at, admitted, done) && admitted < |jobs| && slot < |live|
    requires live[slot] == Idle
    ensures Tracks(jobs, live[slot := Live(admitted, 0, 0)], at, admitted + 1, done)
  {
    assert jobs[admitted] in jobs;
    var next, more := admitted + 1, live[slot := Live(admitted, 0, 0)];
    forall a | 0 <= a < |more|
      ensures UnderWay(jobs, at, more[a])
      ensures more[a].Live? ==> more[a].job < next && more[a].job !in done
    {
      assert UnderWay(jobs, at, live[a]);
    }
    forall r: nat | r < next && r !in done ensures exists a | 0 <= a < |more| :: more[a].Live? && more[a].job == r {
      if r < admitted {
        var a :| 0 <= a < |live| && live[a].Live? && live[a].job == r;
        assert more[a].Live? && more[a].job == r;
      } else {
        assert more[slot].Live? && more[slot].job == r;
      }
    }
  }

  /** Idle slots are filled in the given order for as long as jobs wait. */
  method Refill(jobs: seq<Job>, live: seq<Slot>, ghost at: Progress, admitted: nat, ghost done: set<nat>,
                idle: seq<nat>)
      returns (after: seq<Slot>, next: nat)
    requires JobsOk(jobs) && Tracks(jobs, live, at, admitted, done)
    requires NoRepeat(idle) && forall a | a in idle :: a < |live| && live[a] == Idle
    ensures |after| == |live| && Tracks(jobs, after, at, next, done)
    ensures forall a | 0 <= a < |live| && live[a].Live? :: after[a] == live[a]
    ensures next < |jobs| ==> admitted < |jobs| && forall a | a in idle :: after[a].Live?
  {
    hide Tracks;
    after, next := live, admitted;
    assert forall j | 0 <= j < |idle| :: idle[j] in idle;
    for i := 0 to |idle|
      invariant |after| == |live| && Tracks(jobs, after, at, next, done) && admitted <= next
      invariant forall a | 0 <= a < |live| && live[a].Live? :: after[a] == live[a]
      invariant forall j | 0 <= j < |idle| :: idle[j] < |live|
      invariant forall j | i <= j < |idle| :: after[idle[j]] == Idle
      invariant next < |jobs| ==> forall j | 0 <= j < i :: after[idle[j]].Live?
    {
      if next < |jobs| {
        AdmitKeeps(jobs, after, at, next, done, idle[i]);
        after := after[idle[i] := Live(next, 0, 0)];
        next := next + 1;
      }
    }
  }

  lemma {:induction false} SumPositive(members: seq<Member>)
    requires members != [] && forall i | 0 <= i < |members| :: members[i].tokens > 0
    ensures TokenSum(members) > 0
  {
    assert members[|members| - 1].tokens > 0;
  }

  /** While a job is not done, some slot has work. */
  lemma SomeoneLive(jobs: seq<Job>, live: seq<Slot>, at: Progress, admitted: nat, done: set<nat>)
    requires Tracks(jobs, live, at, admitted, done) && Busy(jobs, live, admitted) && |done| < |jobs| && live != []
    ensures exists a | 0 <= a < |live| :: live[a].Live?
  {
    if admitted == |jobs| {
      var ints: set<int> := done;
      var rest := Range(|jobs|) - ints;
      assert Range(|jobs|) == ints + rest;
      assert rest != {};
      var r: int :| r in rest;
      var a :| 0 <= a < |live| && live[a].Live? && live[a].job == r;
    } else {
      assert live[0].Live?;
    }
  }

  lemma AllDone(jobs: seq<Job>, live: seq<Slot>, at: Progress, admitted: nat, done: set<nat>)
    requires Tracks(jobs, live, at, admitted, done) && |done| >= |jobs|
    ensures Finished(jobs, at)
  {
    var ints: set<int> := done;
    var both := ints + Range(|jobs|);
    assert both == Range(|jobs|);
    SameSizeAtLeast(ints, Range(|jobs|));
    forall r | 0 <= r < |jobs|
      ensures at.positions[r] == jobs[r].prompt + jobs[r].outputs - 1
      ensures at.samples[r] == jobs[r].outputs
    {
      assert r in ints;
      assert JobDone(jobs, at, r);
    }
  }

  lemma SameSizeAtLeast(a: set<int>, b: set<int>)
    requires a <= b && |a| >= |b|
    ensures a == b
  {
    assert b == a + (b - a);
    assert |b| == |a| + |b - a|;
  }

  lemma StartTracks(jobs: seq<Job>, live: seq<Slot>)
    requires JobsOk(jobs) && forall a | 0 <= a < |live| :: live[a] == Idle
    ensures Tracks(jobs, live, Fresh(jobs), 0, {})
  {
  }

  lemma EventReplayed(jobs: seq<Job>, budget: nat, trace: seq<Event>, at: Progress, live: seq<Slot>,
                      members: seq<Member>, next: Progress)
    requires Sized(jobs, at) && Replay(jobs, budget, trace) == Some(at)
    requires BatchOf(jobs, live, budget, members) && Distinct(live) && TokenSum(members) <= budget && members != []
    requires Checked(jobs, at, budget, members, |members|, next)
    ensures Replay(jobs, budget, trace + [Event(TokenSum(members), members)]) == Some(next)
    ensures Sized(jobs, next) && Remaining(jobs, next, |jobs|) < Remaining(jobs, at, |jobs|)
  {
    hide BatchOf, Distinct;
    assert members[..|members|] == members;
    BatchGeometry(jobs, live, budget, members);
    SumPositive(members);
    var e := Event(TokenSum(members), members);
    assert (trace + [e])[..|trace|] == trace;
  }

  lemma LiveJobs(jobs: seq<Job>, live: seq<Slot>, at: Progress, admitted: nat, done: set<nat>)
    requires Tracks(jobs, live, at, admitted, done)
    ensures JobsInRange(jobs, live) && Distinct(live) && Sized(jobs, at)
  {
    forall a | 0 <= a < |live| && live[a].Live? ensures live[a].job < |jobs| {
      assert UnderWay(jobs, at, live[a]);
    }
  }

  /** The first slots get the first jobs. */
  method Begin(jobs: seq<Job>, residents: nat) returns (live: seq<Slot>, admitted: nat)
    requires JobsOk(jobs)
    ensures |live| == residents && Tracks(jobs, live, Fresh(jobs), admitted, {}) && Busy(jobs, live, admitted)
  {
    hide Tracks;
    live := seq(residents, _ => Idle);
    var order := seq(residents, i requires 0 <= i < residents => i as nat);
    StartTracks(jobs, live);
    live, admitted := Refill(jobs, live, Fresh(jobs), 0, {}, order);
    forall a | 0 <= a < |live| && admitted < |jobs| ensures live[a].Live? {
      assert order[a] == a && order[a] in order;
    }
  }

  lemma StillBusy(jobs: seq<Job>, live: seq<Slot>, admitted: nat, members: seq<Member>, after: seq<Slot>,
                  retired: seq<nat>, refilled: seq<Slot>, next: nat)
    requires Busy(jobs, live, admitted) && Framed(live, members, |members|, after, retired) && |refilled| == |after|
    requires forall a | 0 <= a < |after| && after[a].Live? :: refilled[a] == after[a]
    requires next < |jobs| ==> admitted < |jobs| && forall a | a in retired :: refilled[a].Live?
    ensures Busy(jobs, refilled, next)
  {
  }

  /**
   Main: on any requests with a prompt and an output to produce, the driver stops, and the checker accepts
   its trace; so every request ends with its prompt and all but its last output consumed, sampled in full.
   */
  method Drive(jobs: seq<Job>, residents: nat, budget: nat) returns (trace: seq<Event>)
    requires JobsOk(jobs) && residents > 0 && budget > 0
    ensures Accepted(jobs, budget, trace) <==> jobs != []
  {
    hide Tracks, Busy, BatchOf, Checked, Framed;
    var live, admitted := Begin(jobs, residents);
    ghost var at := Fresh(jobs);
    ghost var done: set<nat> := {};
    var completed := 0;
    trace := [];
    NothingOwed(jobs, live, at, admitted, done, |jobs|);
    while completed < |jobs|
      invariant |live| == residents && Tracks(jobs, live, at, admitted, done) && Busy(jobs, live, admitted)
      invariant |done| == completed && Sized(jobs, at) && Remaining(jobs, at, |jobs|) >= 0
      invariant Replay(jobs, budget, trace) == Some(at)
      invariant trace == [] ==> completed == 0
      decreases Remaining(jobs, at, |jobs|)
    {
      LiveJobs(jobs, live, at, admitted, done);
      SomeoneLive(jobs, live, at, admitted, done);
      var members, tokens := BuildBatch(jobs, live, budget);
      ghost var next, all;
      var after, retired;
      after, next, all, completed, retired := ApplyBatch(jobs, live, at, admitted, done, completed, budget, members);
      EventReplayed(jobs, budget, trace, at, live, members, next);
      trace := trace + [Event(tokens, members)];
      RetiredIdle(live, members, after, retired);
      var refilled, more := Refill(jobs, after, next, admitted, all, retired);
      StillBusy(jobs, live, admitted, members, after, retired, refilled, more);
      NothingOwed(jobs, refilled, next, more, all, |jobs|);
      live, admitted, at, done := refilled, more, next, all;
    }
    AllDone(jobs, live, at, admitted, done);
  }

  lemma RetiredIdle(live: seq<Slot>, members: seq<Member>, after: seq<Slot>, retired: seq<nat>)
    requires Framed(live, members, |members|, after, retired)
    ensures |after| == |live| && NoRepeat(retired) && forall a | a in retired :: a < |after| && after[a] == Idle
  {
  }
}
