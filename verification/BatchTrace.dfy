/** The checker of batch traces: the geometry a completed trace must have. */
module BatchTrace {
  import opened Requests
  import Arith
  import Counting

  datatype Job = Job(prompt: nat, outputs: nat)

  datatype Member = Member(job: nat, resident: nat, position: nat, tokens: nat, sample: bool)

  datatype Event = Event(tokens: nat, members: seq<Member>)

  /** How far each job has got. */
  datatype Progress = Progress(positions: seq<nat>, samples: seq<nat>)

  function TokenSum(members: seq<Member>): nat {
    if members == [] then 0 else TokenSum(members[..|members| - 1]) + members[|members| - 1].tokens
  }

  /** The checks on one member, with `remaining` tokens of budget left in its batch. */
  predicate MemberOk(jobs: seq<Job>, at: Progress, remaining: int, m: Member)
    requires |at.positions| == |at.samples| == |jobs|
  {
    && m.job < |jobs| && m.tokens > 0 && m.position == at.positions[m.job]
    && (if m.position < jobs[m.job].prompt then
          m.tokens == LeastOf(jobs[m.job].prompt - m.position, remaining) else m.tokens == 1)
    && (m.sample <==> m.position + m.tokens >= jobs[m.job].prompt)
    && at.samples[m.job] + (if m.sample then 1 else 0) <= jobs[m.job].outputs
  }

  function LeastOf(a: int, b: int): int {
    if a <= b then a else b
  }

  function Advanced(at: Progress, m: Member): Progress
    requires m.job < |at.positions| == |at.samples|
  {
    Progress(at.positions[m.job := m.position + m.tokens],
      at.samples[m.job := at.samples[m.job] + if m.sample then 1 else 0])
  }

  predicate Sized(jobs: seq<Job>, at: Progress) {
    |at.positions| == |at.samples| == |jobs|
  }

  function TakeMembers(jobs: seq<Job>, at: Progress, budget: nat, members: seq<Member>): (r: Option<Progress>)
    requires Sized(jobs, at)
    ensures r.Some? ==> Sized(jobs, r.value)
  {
    if members == [] then Some(at)
    else
      var front, m := members[..|members| - 1], members[|members| - 1];
      match TakeMembers(jobs, at, budget, front)
      case None => None
      case Some(now) => if MemberOk(jobs, now, budget - TokenSum(front), m) then Some(Advanced(now, m)) else None
  }

  ghost predicate Geometry(e: Event, budget: nat) {
    && e.members != [] && 0 < e.tokens <= budget && TokenSum(e.members) == e.tokens
    && (forall i, j | 0 <= i < j < |e.members| ::
          e.members[i].resident != e.members[j].resident && e.members[i].job != e.members[j].job)
  }

  ghost function Replay(jobs: seq<Job>, budget: nat, events: seq<Event>): (r: Option<Progress>)
    ensures r.Some? ==> Sized(jobs, r.value)
  {
    if events == [] then Some(Fresh(jobs))
    else
      var e := events[|events| - 1];
      match Replay(jobs, budget, events[..|events| - 1])
      case None => None
      case Some(at) => if Geometry(e, budget) then TakeMembers(jobs, at, budget, e.members) else None
  }

  function Fresh(jobs: seq<Job>): Progress {
    Progress(seq(|jobs|, _ => 0), seq(|jobs|, _ => 0))
  }

  /** Every job at its end: its prompt and all outputs but the last consumed, every output sampled. */
  predicate Finished(jobs: seq<Job>, at: Progress)
    requires Sized(jobs, at)
  {
    forall r | 0 <= r < |jobs| ::
      at.positions[r] == jobs[r].prompt + jobs[r].outputs - 1 && at.samples[r] == jobs[r].outputs
  }

  /** The traces the checker passes. */
  ghost predicate Accepted(jobs: seq<Job>, budget: nat, events: seq<Event>) {
    events != [] && Replay(jobs, budget, events).Some? && Finished(jobs, Replay(jobs, budget, events).value)
  }

  lemma {:induction false} TakePrefix(jobs: seq<Job>, at: Progress, budget: nat, members: seq<Member>, n: nat)
    requires Sized(jobs, at) && n <= |members| && TakeMembers(jobs, at, budget, members[..n]) == None
    ensures TakeMembers(jobs, at, budget, members) == None
    decreases |members|
  {
    if n == |members| {
      assert members[..n] == members;
    } else {
      assert members[..|members| - 1][..n] == members[..n];
      TakePrefix(jobs, at, budget, members[..|members| - 1], n);
    }
  }

  lemma {:induction false} ReplayPrefix(jobs: seq<Job>, budget: nat, events: seq<Event>, n: nat)
    requires n <= |events| && Replay(jobs, budget, events[..n]) == None
    ensures Replay(jobs, budget, events) == None
    decreases |events|
  {
    if n == |events| {
      assert events[..n] == events;
    } else {
      assert events[..|events| - 1][..n] == events[..n];
      ReplayPrefix(jobs, budget, events[..|events| - 1], n);
    }
  }

  method CheckGeometry(e: Event, budget: nat) returns (ok: bool)
    ensures ok <==> Geometry(e, budget)
  {
    if e.members == [] || !(0 < e.tokens <= budget) {
      return false;
    }
    var sum := 0;
    for i := 0 to |e.members|
      invariant sum == TokenSum(e.members[..i])
      invariant forall a, b | 0 <= a < b < i ::
        e.members[a].resident != e.members[b].resident && e.members[a].job != e.members[b].job
    {
      if exists a | 0 <= a < i ::
        e.members[a].resident == e.members[i].resident || e.members[a].job == e.members[i].job {
        return false;
      }
      assert e.members[..i + 1][..i] == e.members[..i];
      sum := sum + e.members[i].tokens;
    }
    assert e.members[..|e.members|] == e.members;
    return sum == e.tokens;
  }

  method CheckMembers(jobs: seq<Job>, at: Progress, budget: nat, members: seq<Member>) returns (r: Option<Progress>)
    requires Sized(jobs, at)
    ensures r == TakeMembers(jobs, at, budget, members)
  {
    var now := at;
    var remaining: int := budget;
    for i := 0 to |members|
      invariant Sized(jobs, now) && TakeMembers(jobs, at, budget, members[..i]) == Some(now)
      invariant remaining == budget - TokenSum(members[..i])
    {
      var m := members[i];
      assert members[..i + 1][..i] == members[..i];
      if !MemberOk(jobs, now, remaining, m) {
        TakePrefix(jobs, at, budget, members, i + 1);
        return None;
      }
      now := Advanced(now, m);
      remaining := remaining - m.tokens;
    }
    assert members[..|members|] == members;
    return Some(now);
  }

  /** The checker: walks the events, keeping each job's position and sample count. */
  method Validate(jobs: seq<Job>, budget: nat, events: seq<Event>) returns (ok: bool)
    ensures ok <==> Accepted(jobs, budget, events)
  {
    hide Geometry;
    var at := Fresh(jobs);
    for i := 0 to |events|
      invariant Sized(jobs, at) && Replay(jobs, budget, events[..i]) == Some(at)
    {
      assert events[..i + 1][..i] == events[..i];
      var good := CheckGeometry(events[i], budget);
      if !good {
        ReplayPrefix(jobs, budget, events, i + 1);
        return false;
      }
      var next := CheckMembers(jobs, at, budget, events[i].members);
      if next == None {
        ReplayPrefix(jobs, budget, events, i + 1);
        return false;
      }
      at := next.value;
    }
    assert events[..|events|] == events;
    return events != [] && Finished(jobs, at);
  }

  // ------------------------------------------------ the same, without a replay

  /** All members of a trace, one after the other. */
  function Flat(events: seq<Event>): seq<Member> {
    if events == [] then [] else Flat(events[..|events| - 1]) + events[|events| - 1].members
  }

  /** Tokens of a job among these members. */
  function TokensOf(members: seq<Member>, job: nat): nat {
    if members == [] then 0
    else
      var m := members[|members| - 1];
      TokensOf(members[..|members| - 1], job) + if m.job == job then m.tokens else 0
  }

  function SamplesOf(members: seq<Member>, job: nat): nat {
    if members == [] then 0
    else
      var m := members[|members| - 1];
      SamplesOf(members[..|members| - 1], job) + if m.job == job && m.sample then 1 else 0
  }

  /**
   A member that continues its job where the members `before` it left off: as much of the prompt as the batch has room
   for, or one token; it samples exactly at or behind the prompt's end, and no more often than asked for.
   */
  ghost predicate Due(jobs: seq<Job>, before: seq<Member>, room: int, m: Member) {
    && m.job < |jobs| && m.tokens > 0 && m.position == TokensOf(before, m.job)
    && var left := jobs[m.job].prompt - m.position;
    && m.tokens == (if left <= 0 then 1 else if left <= room then left else room)
    && (m.sample <==> left <= m.tokens)
    && SamplesOf(before, m.job) + (if left <= m.tokens then 1 else 0) <= jobs[m.job].outputs
  }

  ghost function Standing(jobs: seq<Job>, members: seq<Member>): Progress {
    Progress(seq(|jobs|, r requires 0 <= r < |jobs| => TokensOf(members, r)),
      seq(|jobs|, r requires 0 <= r < |jobs| => SamplesOf(members, r)))
  }

  lemma DueIsOk(jobs: seq<Job>, before: seq<Member>, room: int, m: Member)
    ensures MemberOk(jobs, Standing(jobs, before), room, m) <==> Due(jobs, before, room, m)
    ensures Due(jobs, before, room, m) ==> Advanced(Standing(jobs, before), m) == Standing(jobs, before + [m])
  {
    assert (before + [m])[..|before|] == before;
    if Due(jobs, before, room, m) {
      assert Advanced(Standing(jobs, before), m).positions == Standing(jobs, before + [m]).positions;
      assert Advanced(Standing(jobs, before), m).samples == Standing(jobs, before + [m]).samples;
    }
  }

  ghost predicate DueAt(jobs: seq<Job>, before: seq<Member>, budget: nat, members: seq<Member>, i: nat)
    requires i < |members|
  {
    Due(jobs, before + members[..i], budget - TokenSum(members[..i]), members[i])
  }

  lemma {:induction false} TakeIsDue(jobs: seq<Job>, before: seq<Member>, budget: nat, members: seq<Member>, n: nat)
    requires n <= |members|
    ensures var r := TakeMembers(jobs, Standing(jobs, before), budget, members[..n]);
      && (r.Some? <==> forall i: nat | i < n :: DueAt(jobs, before, budget, members, i))
      && (r.Some? ==> r.value == Standing(jobs, before + members[..n]))
    decreases n
  {
    hide MemberOk, Due, Advanced, Standing;
    if n == 0 {
      assert before + members[..0] == before;
    } else {
      TakeIsDue(jobs, before, budget, members, n - 1);
      assert members[..n][..n - 1] == members[..n - 1];
      assert before + members[..n] == before + members[..n - 1] + [members[n - 1]];
      DueIsOk(jobs, before + members[..n - 1], budget - TokenSum(members[..n - 1]), members[n - 1]);
      assert DueAt(jobs, before, budget, members, n - 1)
        <==> Due(jobs, before + members[..n - 1], budget - TokenSum(members[..n - 1]), members[n - 1]);
    }
  }

  ghost predicate EventOk(jobs: seq<Job>, budget: nat, events: seq<Event>, e: nat)
    requires e < |events|
  {
    && Geometry(events[e], budget)
    && forall i: nat | i < |events[e].members| :: DueAt(jobs, Flat(events[..e]), budget, events[e].members, i)
  }

  lemma {:induction false} ReplayIsDue(jobs: seq<Job>, budget: nat, events: seq<Event>, n: nat)
    requires n <= |events|
    ensures var r := Replay(jobs, budget, events[..n]);
      && (r.Some? <==> forall e: nat | e < n :: EventOk(jobs, budget, events, e))
      && (r.Some? ==> r.value == Standing(jobs, Flat(events[..n])))
    decreases n
  {
    hide Geometry, DueAt, TakeMembers;
    if n == 0 {
      NobodyStands(jobs);
    } else {
      ReplayIsDue(jobs, budget, events, n - 1);
      var before, members := Flat(events[..n - 1]), events[n - 1].members;
      assert events[..n][..n - 1] == events[..n - 1];
      assert members[..|members|] == members;
      TakeIsDue(jobs, before, budget, members, |members|);
      assert EventOk(jobs, budget, events, n - 1)
        <==> Geometry(events[n - 1], budget) && forall i: nat | i < |members| ::
          DueAt(jobs, before, budget, members, i);
    }
  }

  lemma NobodyStands(jobs: seq<Job>)
    ensures Fresh(jobs) == Standing(jobs, [])
  {
  }

  /**
   Main: a trace is accepted if and only if every batch is in order, every member continues its job where it stood, and
   in the end each job has consumed its prompt and all outputs but the last, and has been sampled for each of them.
   */
  lemma AcceptedIff(jobs: seq<Job>, budget: nat, events: seq<Event>)
    ensures Accepted(jobs, budget, events) <==>
      && events != [] && (forall e: nat | e < |events| :: EventOk(jobs, budget, events, e))
      && (forall r: nat | r < |jobs| ::
            && TokensOf(Flat(events), r) == jobs[r].prompt + jobs[r].outputs - 1
            && SamplesOf(Flat(events), r) == jobs[r].outputs)
  {
    hide EventOk, Replay;
    ReplayIsDue(jobs, budget, events, |events|);
    assert events[..|events|] == events;
  }
}
