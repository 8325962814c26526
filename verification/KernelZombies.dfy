/** A killed thread that runs all the same: the scheduler tests one thread only. */
module KernelZombies {
  import opened Contexts
  import opened KernelState
  import opened KernelRuns
  import opened KernelSwitches
  import opened KernelEffects

  /** main creates two threads, kills both, and the timer fires. */
  function TwoKilled(c: Ctx, d: Ctx): seq<Op> {
    [Create(c), Create(d), Kill(1), Kill(2), Yield(0)]
  }

  lemma Room<T>(m: map<int, T>)
    requires 255 !in m
    ensures HasRoom(m)
  {
  }

  /** main runs in front of this ring, nobody sleeps or waits, and these are the threads and ids. */
  ghost predicate Family(s: State, ready: seq<Ctx>, known: set<Ctx>, table: map<int, Ctx>) {
    && Runs(s) && s.th.ready == ready && ready[0] != s.env.idle && !s.th.skew && s.th.sleeping == []
    && Mourners(s) == [] && s.mail.pending == map[] && s.mail.reaping == map[]
    && s.reg.ids.Keys == known && s.reg.table == table
  }

  lemma FamilyCreates(s: State, ready: seq<Ctx>, known: set<Ctx>, table: map<int, Ctx>, c: Ctx)
    requires Inv(s) && Family(s, ready, known, table) && c !in known && 255 !in table
    ensures ready != [] && Enabled(s, Create(c))
  {
    hide Inv, HasRoom, Runs, Private, Forsaken, Mourners;
    RunsFacts(s);
    Room(table);
  }

  lemma FamilyCreated(s: State, s': State, ready: seq<Ctx>, known: set<Ctx>, table: map<int, Ctx>, c: Ctx, id: int)
    requires Family(s, ready, known, table) && Runs(s') && Created(s, s', c, id)
    ensures ready != [] && Family(s', [ready[0], c] + ready[1..], known + {c}, table[id := c])
  {
    hide Lowest, Runs;
    RunsFacts(s);
    assert s'.reg.ids.Keys == s.reg.ids.Keys + {c};
  }

  lemma RunsFacts(s: State)
    requires Runs(s)
    ensures s.th.ready != []
  {
  }

  lemma FamilyGrows(s: State, ready: seq<Ctx>, known: set<Ctx>, table: map<int, Ctx>, c: Ctx, id: int)
    requires Inv(s) && Family(s, ready, known, table) && c !in known && 255 !in table && Lowest(table, id)
    ensures ready != [] && Enabled(s, Create(c))
    ensures Family(Step(s, Create(c)), [ready[0], c] + ready[1..], known + {c}, table[id := c])
  {
    hide *;
    FamilyCreates(s, ready, known, table, c);
    var i := CreateEffect(s, c);
    StepRuns(s, Create(c));
    FamilyCreated(s, Step(s, Create(c)), ready, known, table, c, i);
    LowestIs(s, ready, known, table, Step(s, Create(c)), c, i, id);
  }

  lemma LowestIs(s: State, ready: seq<Ctx>, known: set<Ctx>, table: map<int, Ctx>, s': State, c: Ctx, i: int, id: int)
    requires Family(s, ready, known, table) && Created(s, s', c, i) && Lowest(table, id)
    ensures i == id
  {
    hide Runs;
  }

  lemma FamilyKilled(s: State, ready: seq<Ctx>, known: set<Ctx>, table: map<int, Ctx>, pid: int)
    requires Inv(s) && Family(s, ready, known, table) && pid in table && pid != 0
    ensures Enabled(s, Kill(pid)) && Family(Step(s, Kill(pid)), ready, known, table)
    ensures table[pid] in Step(s, Kill(pid)).reg.zombi && s.reg.zombi <= Step(s, Kill(pid)).reg.zombi
  {
    hide *;
    FamilyKills(s, ready, known, table, pid);
    KillEffect(s, pid);
    StepRuns(s, Kill(pid));
    FamilyStays(s, Step(s, Kill(pid)), ready, known, table);
  }

  lemma FamilyKills(s: State, ready: seq<Ctx>, known: set<Ctx>, table: map<int, Ctx>, pid: int)
    requires Family(s, ready, known, table) && pid != 0
    ensures Enabled(s, Kill(pid))
    ensures s.reg.table == table
  {
    hide Runs, Private, Forsaken, Mourners;
    RunsFacts(s);
  }

  lemma FamilyStays(s: State, s': State, ready: seq<Ctx>, known: set<Ctx>, table: map<int, Ctx>)
    requires Family(s, ready, known, table) && Runs(s')
    requires s'.th == s.th && s'.sems == s.sems && s'.mail == s.mail && s'.env == s.env
    requires s'.reg.ids == s.reg.ids && s'.reg.table == s.reg.table
    ensures Family(s', ready, known, table)
  {
    hide Runs;
  }

  lemma FamilyLine(s: State, main: Ctx, idle: Ctx, c: Ctx, d: Ctx, known: set<Ctx>, table: map<int, Ctx>)
    requires Family(s, [main, d, c, idle], known, table)
    ensures Line(s, Yield(0)) == [d, c, idle, main] && Waiters(s, Yield(0)) == []
  {
  }

  lemma FamilyYields(s: State, main: Ctx, idle: Ctx, c: Ctx, d: Ctx, known: set<Ctx>, table: map<int, Ctx>)
    requires Inv(s) && Family(s, [main, d, c, idle], known, table) && c in s.reg.zombi && d in s.reg.zombi
    ensures Enabled(s, Yield(0)) && Step(s, Yield(0)).th.ready == [c, idle, main] && c in Step(s, Yield(0)).reg.zombi
  {
    hide *;
    FamilyTimer(s, [main, d, c, idle], known, table);
    AlwaysSwitches(s, Yield(0));
    SwitchEffect(s, Yield(0));
    EffectParts(s, Yield(0), Step(s, Yield(0)));
    RingIs(s, Yield(0), Step(s, Yield(0)));
    FamilyLine(s, main, idle, c, d, known, table);
    assert First([]) + [d, c, idle, main][1..] == [c, idle, main] by {
      NoFirst();
    }
  }

  lemma NoFirst()
    ensures First([]) == []
  {
  }

  lemma FamilyTimer(s: State, ready: seq<Ctx>, known: set<Ctx>, table: map<int, Ctx>)
    requires Family(s, ready, known, table)
    ensures Enabled(s, Yield(0)) && Runs(s)
  {
    hide Private, Forsaken;
  }

  /** The input for KernelSwitches.ZombieRuns: of two killed threads in a row the second one runs. */
  lemma KilledRunsExample(main: Ctx, idle: Ctx, c: Ctx, d: Ctx, repaired: bool)
    requires main != idle && main != c && idle != c && main != d && idle != d && c != d
    ensures Inv(Booted(main, idle, repaired)) && Legal(Booted(main, idle, repaired), TwoKilled(c, d))
    ensures var s := Run(Booted(main, idle, repaired), TwoKilled(c, d));
            s.th.ready == [c, idle, main] && c in s.reg.zombi
  {
    hide *;
    var s0 := Booted(main, idle, repaired);
    BootedInv(main, idle, repaired);
    InvRuns(s0);
    FamilyStarts(main, idle, repaired);
    NextSlot(map[0 := idle], 1);
    NextSlot(map[0 := idle][1 := c], 2);
    FamilyGrows(s0, [main, idle], {main, idle}, map[0 := idle], c, 1);
    StepInv(s0, Create(c));
    var s1 := Step(s0, Create(c));
    assert [main, c] + [main, idle][1..] == [main, c, idle];
    FamilyGrows(s1, [main, c, idle], {main, idle} + {c}, map[0 := idle][1 := c], d, 2);
    StepInv(s1, Create(d));
    var s2 := Step(s1, Create(d));
    assert [main, d] + [main, c, idle][1..] == [main, d, c, idle];
    var known, table := {main, idle} + {c} + {d}, map[0 := idle][1 := c][2 := d];
    FamilyKilled(s2, [main, d, c, idle], known, table, 1);
    StepInv(s2, Kill(1));
    var s3 := Step(s2, Kill(1));
    FamilyKilled(s3, [main, d, c, idle], known, table, 2);
    StepInv(s3, Kill(2));
    var s4 := Step(s3, Kill(2));
    FamilyYields(s4, main, idle, c, d, known, table);
    StepInv(s4, Yield(0));
    RunEnds(Step(s4, Yield(0)));
    Unfolded(s4, Yield(0), []);
    Unfolded(s3, Kill(2), [Yield(0)] + []);
    Unfolded(s2, Kill(1), [Kill(2)] + ([Yield(0)] + []));
    Unfolded(s1, Create(d), [Kill(1)] + ([Kill(2)] + ([Yield(0)] + [])));
    Unfolded(s0, Create(c), [Create(d)] + ([Kill(1)] + ([Kill(2)] + ([Yield(0)] + []))));
    FiveSteps(c, d);
  }

  lemma FiveSteps(c: Ctx, d: Ctx)
    ensures TwoKilled(c, d) == [Create(c)] + ([Create(d)] + ([Kill(1)] + ([Kill(2)] + ([Yield(0)] + []))))
  {
  }

  lemma FamilyStarts(main: Ctx, idle: Ctx, repaired: bool)
    requires main != idle && Runs(Booted(main, idle, repaired))
    ensures Family(Booted(main, idle, repaired), [main, idle], {main, idle}, map[0 := idle])
  {
  }

  lemma NextSlot(table: map<int, Ctx>, id: int)
    requires 0 <= id < 255 && id !in table && forall k :: 0 <= k < id ==> k in table
    ensures Lowest(table, id)
  {
  }
}
