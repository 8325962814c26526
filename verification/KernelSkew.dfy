/** When line 149 of semaphore.c, as written, breaks the ready ring. */
module KernelSkew {
  import opened Contexts
  import opened KernelState
  import opened KernelCases
  import opened KernelRuns

  lemma GiveSemSkew(s: State, id: int)
    requires s.th.ready != [] && id in s.sems
    ensures GiveSem(s, id).th.skew <==>
              if s.sems[id].waiters != [] then !s.env.repaired && |s.th.ready| >= 2 else s.th.skew
  {
  }

  /** Idle is in the ring beside the thread that gives. */
  lemma NotAlone(s: State)
    requires Runs(s) && s.th.ready != [] && s.th.ready[0] != s.env.idle
    ensures |s.th.ready| >= 2
  {
  }

  /**
   * Exactly when a give breaks the ring: as written, every give to a semaphore somebody waits at does,
   * for nobody but idle is ever alone in the ring; with the repaired link none does.
   */
  lemma GiveSkews(s: State, id: int)
    requires Inv(s) && Enabled(s, Give(id)) && id in s.sems
    ensures Step(s, Give(id)).th.skew <==> if s.sems[id].waiters != [] then !s.env.repaired else s.th.skew
  {
    hide *;
    GiveIs(s, id);
    NotAlone(s);
    GiveSemSkew(s, id);
  }

  /** The same for send_message, by the semaphore of the queue. */
  lemma SendSkews(s: State, q: int, msg: Bytes)
    requires Inv(s) && Enabled(s, Send(q, msg)) && q in s.mail.queues
    ensures s.mail.queues[q].sem in s.sems
    ensures Step(s, Send(q, msg)).th.skew <==>
              if s.sems[s.mail.queues[q].sem].waiters != [] then !s.env.repaired else s.th.skew
  {
    hide Inv, Enabled, Step, GiveSem;
    SendIs(s, q, msg);
    NotAlone(s);
    GiveSemSkew(Appended(s, q, msg), s.mail.queues[q].sem);
  }

  // ---- a run that gets there ----------------------------------------------------------------------

  /** main creates a thread and blocks at a semaphore; the thread wakes it. */
  function ToSkew(c: Ctx): seq<Op> {
    [Create(c), NewSemaphore(0), Take(1), Give(1)]
  }

  function Created(main: Ctx, idle: Ctx, c: Ctx): State {
    State(Threads([main, c, idle], false, [], map[], map[main := Ready, idle := Ready, c := Ready]),
          map[0 := NewSem(0)],
          Mail(map[0 := Queue(0, [], [], [])], map[], map[]),
          Registry(map[main := -1, idle := 0, c := 1], map[0 := idle, 1 := c], {}),
          Env(0, idle, main, false))
  }

  function Equipped(main: Ctx, idle: Ctx, c: Ctx): State {
    Created(main, idle, c).(sems := map[0 := NewSem(0), 1 := NewSem(0)])
  }

  function MainBlocked(main: Ctx, idle: Ctx, c: Ctx): State {
    Equipped(main, idle, c).(
      th := Threads([c, idle], false, [], map[], map[main := Waiting(1), idle := Ready, c := Ready]),
      sems := map[0 := NewSem(0), 1 := Semaphore(0, [main], 0, 0, 0)])
  }

  lemma FirstStep(main: Ctx, idle: Ctx, c: Ctx)
    requires main != idle && main != c && idle != c && Inv(Booted(main, idle, false))
    ensures Enabled(Booted(main, idle, false), Create(c))
    ensures Step(Booted(main, idle, false), Create(c)) == Created(main, idle, c)
  {
    hide Inv;
    CreateIs(Booted(main, idle, false), c);
    var s := CreateThread(Booted(main, idle, false), c);
    assert s.th.ready == [main, c, idle];
    assert FirstFree(map[0 := idle], 0) == 1;
    assert s.th.status == Created(main, idle, c).th.status && s.reg == Created(main, idle, c).reg;
  }

  lemma SecondStep(main: Ctx, idle: Ctx, c: Ctx)
    requires main != idle && main != c && idle != c && Inv(Created(main, idle, c))
    ensures Enabled(Created(main, idle, c), NewSemaphore(0))
    ensures Step(Created(main, idle, c), NewSemaphore(0)) == Equipped(main, idle, c)
  {
    hide Inv;
    assert FirstFree(map[0 := NewSem(0)], 0) == 1;
    NewSemaphoreIs(Created(main, idle, c), 0);
  }

  lemma ThirdStep(main: Ctx, idle: Ctx, c: Ctx)
    requires main != idle && main != c && idle != c && Inv(Equipped(main, idle, c))
    ensures Enabled(Equipped(main, idle, c), Take(1))
    ensures Step(Equipped(main, idle, c), Take(1)) == MainBlocked(main, idle, c)
  {
    hide Inv;
    var s := Equipped(main, idle, c);
    TakeIs(s, 1);
    ParkRuns(s, 1);
    assert Park(s, 1).th.ready == [c, idle];
    assert Park(s, 1).th.status == MainBlocked(main, idle, c).th.status;
    assert Park(s, 1).sems[1].waiters == [main];
    assert Park(s, 1).sems == MainBlocked(main, idle, c).sems;
  }

  lemma FourthStep(main: Ctx, idle: Ctx, c: Ctx)
    requires main != idle && main != c && idle != c && Inv(MainBlocked(main, idle, c))
    ensures Enabled(MainBlocked(main, idle, c), Give(1))
    ensures Step(MainBlocked(main, idle, c), Give(1)).th.skew
    ensures Step(MainBlocked(main, idle, c), Give(1)).th.ready == [c, main, idle]
    ensures Step(MainBlocked(main, idle, c), Give(1)).th.sleeping == []
  {
    hide Inv;
    GiveIs(MainBlocked(main, idle, c), 1);
  }

  /**
   * A skewed ring is reachable from start_scheduler in four steps of the code as written, and the
   * timer that fires then is outside of the model.
   */
  lemma SkewReachable(main: Ctx, idle: Ctx, c: Ctx)
    requires main != idle && main != c && idle != c
    ensures Inv(Booted(main, idle, false)) && Legal(Booted(main, idle, false), ToSkew(c))
    ensures var s := Run(Booted(main, idle, false), ToSkew(c));
            s.th.skew && s.th.ready == [c, main, idle] && forall now :: !Enabled(s, Yield(now))
  {
    hide *;
    BootedInv(main, idle, false);
    FirstStep(main, idle, c);
    StepInv(Booted(main, idle, false), Create(c));
    SecondStep(main, idle, c);
    StepInv(Created(main, idle, c), NewSemaphore(0));
    ThirdStep(main, idle, c);
    StepInv(Equipped(main, idle, c), Take(1));
    FourthStep(main, idle, c);
    StepInv(MainBlocked(main, idle, c), Give(1));
    var s := Step(MainBlocked(main, idle, c), Give(1));
    RunEnds(s);
    Unfolded(MainBlocked(main, idle, c), Give(1), []);
    Unfolded(Equipped(main, idle, c), Take(1), [Give(1)] + []);
    Unfolded(Created(main, idle, c), NewSemaphore(0), [Take(1)] + ([Give(1)] + []));
    Unfolded(Booted(main, idle, false), Create(c), [NewSemaphore(0)] + ([Take(1)] + ([Give(1)] + [])));
    FourSteps(c);
    TimerRefused(s);
  }

  lemma FourSteps(c: Ctx)
    ensures ToSkew(c) == [Create(c)] + ([NewSemaphore(0)] + ([Take(1)] + ([Give(1)] + [])))
  {
  }

  lemma TimerRefused(s: State)
    requires s.th.skew && s.th.sleeping == []
    ensures forall now :: !Enabled(s, Yield(now))
  {
  }
}
