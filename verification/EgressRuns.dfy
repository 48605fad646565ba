/** Any number of daemon processes writing the policy document under its lock, and any number
    of proxies reading it through their caches, interleaved one file operation at a time. */
module EgressRuns {
  import opened Wrappers
  import opened Egress
  import opened EgressProxy

  /** Where a writer is in `register` or `unregister`. */
  datatype Writer = Idle | Locked(m: Mutation) | Holding(m: Mutation, data: Document) | Written

  /** A proxy's cache. `version` counts the commits behind what it holds, `seen` those behind
      the file when it last took its stamp, `failed` a reload that kept the old policies. */
  datatype Reader = Reader(statted: Option<int>, policies: Policies, stamp: Option<int>,
                           version: nat, seen: nat, failed: bool)

  /** `log` and `stamps` are the commits so far and the modification time each one left. */
  datatype Shared = Shared(file: Option<Document>, lock: Option<nat>, writers: map<nat, Writer>,
                           readers: map<nat, Reader>, log: seq<Mutation>, stamps: seq<int>)

  const INIT := Shared(None, None, map[], map[], [], [])

  datatype Step =
    | Lock(p: nat, m: Mutation)
    | Load(p: nat)
    | Replace(p: nat, stamp: int)
    | Unlock(p: nat)
    | Crash(p: nat)
    | Stat(r: nat)
    | Fetch(r: nat, ok: bool)

  function WriterOf(s: Shared, p: nat): Writer {
    if p in s.writers then s.writers[p] else Idle
  }

  function ReaderOf(s: Shared, r: nat): Reader {
    if r in s.readers then s.readers[r] else Reader(None, map[], None, 0, 0, false)
  }

  /** Leave the critical section: the kernel frees the lock with the descriptor. */
  function Leave(s: Shared, p: nat): Shared {
    s.(writers := s.writers[p := Idle], lock := None)
  }

  function Next(s: Shared, step: Step): Shared {
    match step
    case Lock(p, m) =>
      if WriterOf(s, p).Idle? && s.lock.None? && m.env != ""
      then s.(lock := Some(p), writers := s.writers[p := Locked(m)]) else s
    case Load(p) =>
      if !WriterOf(s, p).Locked? then s
      else
        (match Read(s.file)
         case None => Leave(s, p)
         case Some(d) => s.(writers := s.writers[p := Holding(WriterOf(s, p).m, d)]))
    case Replace(p, stamp) =>
      if !WriterOf(s, p).Holding? then s
      else
        (match Apply(WriterOf(s, p).m, WriterOf(s, p).data)
         case None => Leave(s, p)
         case Some(d) =>
           s.(file := Some(d), writers := s.writers[p := Written],
              log := s.log + [WriterOf(s, p).m], stamps := s.stamps + [stamp]))
    case Unlock(p) => if WriterOf(s, p).Written? then Leave(s, p) else s
    case Crash(p) => if WriterOf(s, p).Idle? then s else Leave(s, p)
    case Stat(r) =>
      var c := ReaderOf(s, r).(seen := |s.log|, failed := false);
      if s.file.None? || s.stamps == [] || c.stamp == Some(s.stamps[|s.stamps| - 1])
      then s.(readers := s.readers[r := c.(statted := None)])
      else s.(readers := s.readers[r := c.(statted := Some(s.stamps[|s.stamps| - 1]))])
    case Fetch(r, ok) =>
      var c := ReaderOf(s, r);
      if c.statted.None? then s
      else if !ok || s.file.None? then s.(readers := s.readers[r := c.(statted := None, failed := true)])
      else
        s.(readers := s.readers[r := c.(statted := None, policies := Project(s.file.value),
                                       stamp := c.statted, version := |s.log|)])
  }

  function Run(s: Shared, steps: seq<Step>): Shared {
    if steps == [] then s else Next(Run(s, steps[..|steps| - 1]), steps[|steps| - 1])
  }

  /** The document that the first mutations leave, one after another. */
  function Fold(log: seq<Mutation>): Document {
    if log == [] then map[]
    else
      var d := Fold(log[..|log| - 1]);
      match Apply(log[|log| - 1], d)
      case None => d
      case Some(d') => d'
  }

  // ---- the writers ----

  ghost predicate WritersInv(s: Shared) {
    && |s.stamps| == |s.log|
    && s.file == (if s.log == [] then None else Some(Fold(s.log)))
    && Sound(Fold(s.log))
    && (forall p: nat :: !WriterOf(s, p).Idle? ==> s.lock == Some(p))
    && (forall p: nat :: WriterOf(s, p).Locked? || WriterOf(s, p).Holding? ==> WriterOf(s, p).m.env != "")
    && (forall p: nat :: WriterOf(s, p).Holding? ==> WriterOf(s, p).data == Fold(s.log))
  }

  lemma FoldSnoc(log: seq<Mutation>, m: Mutation)
    ensures Fold(log + [m]) == match Apply(m, Fold(log)) case None => Fold(log) case Some(d) => d
  {
  }

  lemma LeaveKeeps(s: Shared, p: nat)
    requires WritersInv(s) && s.lock == Some(p)
    ensures WritersInv(Leave(s, p))
  {
  }

  lemma CommitKeeps(s: Shared, p: nat, stamp: int)
    requires WritersInv(s) && WriterOf(s, p).Holding? && Apply(WriterOf(s, p).m, WriterOf(s, p).data).Some?
    ensures WritersInv(Next(s, Replace(p, stamp)))
  {
    hide Sound, Apply, Fold;
    var m, s' := WriterOf(s, p).m, Next(s, Replace(p, stamp));
    FoldSnoc(s.log, m);
    ApplyKeepsSound(m, Fold(s.log));
    forall q: nat | q != p ensures WriterOf(s', q).Idle? {
      assert WriterOf(s', q) == WriterOf(s, q);
    }
    assert WriterOf(s', p).Written?;
  }

  lemma WritersStep(s: Shared, step: Step)
    requires WritersInv(s)
    ensures WritersInv(Next(s, step))
  {
    hide Sound, Apply, Read, Project, Fold;
    match step
    case Lock(p, _) =>
      WrittenReadsBack(s);
      EntryKeeps(s, step, p);
    case Load(p) =>
      WrittenReadsBack(s);
      EntryKeeps(s, step, p);
    case Replace(p, stamp) =>
      if WriterOf(s, p).Holding? {
        if Apply(WriterOf(s, p).m, WriterOf(s, p).data).Some? {
          CommitKeeps(s, p, stamp);
        } else {
          LeaveKeeps(s, p);
        }
      }
    case Unlock(p) =>
      if WriterOf(s, p).Written? {
        LeaveKeeps(s, p);
      }
    case Crash(p) =>
      if !WriterOf(s, p).Idle? {
        LeaveKeeps(s, p);
      }
    case Stat(_) =>
      assert forall q: nat :: WriterOf(Next(s, step), q) == WriterOf(s, q);
    case Fetch(_, _) =>
      assert forall q: nat :: WriterOf(Next(s, step), q) == WriterOf(s, q);
  }

  lemma EntryKeeps(s: Shared, step: Step, p: nat)
    requires WritersInv(s) && Read(s.file) == Some(Fold(s.log))
    requires step == Load(p) || (step.Lock? && step.p == p)
    ensures WritersInv(Next(s, step))
  {
  }

  lemma WrittenReadsBack(s: Shared)
    requires WritersInv(s)
    ensures Read(s.file) == Some(Fold(s.log))
  {
    if s.log != [] {
      SoundReadsBack(Fold(s.log));
    }
  }

  lemma {:induction false} WritersRun(steps: seq<Step>)
    ensures WritersInv(Run(INIT, steps))
  {
    if steps != [] {
      WritersRun(steps[..|steps| - 1]);
      WritersStep(Run(INIT, steps[..|steps| - 1]), steps[|steps| - 1]);
    }
  }

  /** The document is always the fold of the commits in their order: no update is lost. Every
      environment has at most one address in it, and it reads back as it was written. */
  lemma WritersLinearize(steps: seq<Step>)
    ensures var s := Run(INIT, steps);
      && (s.file == if s.log == [] then None else Some(Fold(s.log)))
      && Sound(Fold(s.log))
      && Read(s.file) == Some(Fold(s.log))
  {
    WritersRun(steps);
    WrittenReadsBack(Run(INIT, steps));
  }

  /** Only a writer that holds the lock commits, and it commits its own mutation. */
  lemma CommitsAreWriters(steps: seq<Step>, step: Step)
    ensures var s, s' := Run(INIT, steps), Next(Run(INIT, steps), step);
      s'.log != s.log ==>
        step.Replace? && s.lock == Some(step.p) && WriterOf(s, step.p).Holding?
        && s'.log == s.log + [WriterOf(s, step.p).m]
  {
    WritersRun(steps);
  }

  // ---- the readers ----

  ghost predicate DistinctStamps(s: Shared) {
    forall i, j :: 0 <= i < j < |s.stamps| ==> s.stamps[i] != s.stamps[j]
  }

  ghost predicate StampOf(s: Shared, stamp: int, version: nat) {
    1 <= version <= |s.stamps| && s.stamps[version - 1] == stamp
  }

  ghost predicate ReaderInv(s: Shared, c: Reader) {
    && c.version <= |s.log| && c.seen <= |s.log|
    && c.policies == Project(Fold(s.log[..c.version]))
    && (c.stamp.Some? ==> exists v: nat :: v <= c.version && StampOf(s, c.stamp.value, v))
    && (c.statted.Some? ==> StampOf(s, c.statted.value, c.seen))
    && (c.statted.None? && !c.failed ==> c.version >= c.seen)
  }

  ghost predicate ReadersInv(s: Shared) {
    WritersInv(s) && forall r :: ReaderInv(s, ReaderOf(s, r))
  }

  lemma StampsGrow(s: Shared, step: Step)
    ensures s.log <= Next(s, step).log && s.stamps <= Next(s, step).stamps
  {
  }

  /** A cache that held before a step holds after it, if the step does not touch it. */
  lemma ReaderFrame(s: Shared, s': Shared, c: Reader)
    requires ReaderInv(s, c) && s.log <= s'.log && s.stamps <= s'.stamps
    requires |s.stamps| == |s.log| && |s'.stamps| == |s'.log|
    ensures ReaderInv(s', c)
  {
    assert s'.log[..c.version] == s.log[..c.version];
    if c.stamp.Some? {
      var v: nat :| v <= c.version && StampOf(s, c.stamp.value, v);
      assert StampOf(s', c.stamp.value, v);
    }
  }

  lemma StatKeeps(s: Shared, r: nat)
    requires ReadersInv(s) && DistinctStamps(s)
    ensures ReaderInv(Next(s, Stat(r)), ReaderOf(Next(s, Stat(r)), r))
  {
    hide Project, Fold, Sound;
    var c, s' := ReaderOf(s, r), Next(s, Stat(r));
    if c.stamp.Some? {
      var v: nat :| v <= c.version && StampOf(s, c.stamp.value, v);
      assert StampOf(s', c.stamp.value, v);
    }
  }

  lemma FetchKeeps(s: Shared, r: nat, ok: bool)
    requires ReadersInv(s)
    ensures ReaderInv(Next(s, Fetch(r, ok)), ReaderOf(Next(s, Fetch(r, ok)), r))
  {
    hide Project, Fold, Sound;
    var c, s' := ReaderOf(s, r), Next(s, Fetch(r, ok));
    assert s.log[..|s.log|] == s.log;
    if c.statted.Some? {
      assert StampOf(s', c.statted.value, c.seen);
    }
    if c.stamp.Some? {
      var v: nat :| v <= c.version && StampOf(s, c.stamp.value, v);
      assert StampOf(s', c.stamp.value, v);
    }
  }

  lemma ReadersStep(s: Shared, step: Step)
    requires ReadersInv(s) && DistinctStamps(s)
    ensures ReadersInv(Next(s, step))
  {
    hide ReaderInv, WritersInv;
    WritersStep(s, step);
    StampsGrow(s, step);
    var s' := Next(s, step);
    Lengths(s);
    Lengths(s');
    forall r ensures ReaderInv(s', ReaderOf(s', r)) {
      if step == Stat(r) {
        StatKeeps(s, r);
      } else if step.Fetch? && step.r == r {
        FetchKeeps(s, r, step.ok);
      } else {
        assert ReaderOf(s', r) == ReaderOf(s, r);
        ReaderFrame(s, s', ReaderOf(s, r));
      }
    }
  }

  lemma Lengths(s: Shared)
    requires WritersInv(s)
    ensures |s.stamps| == |s.log|
  {
  }

  lemma {:induction false} ReadersRun(steps: seq<Step>)
    requires DistinctStamps(Run(INIT, steps))
    ensures ReadersInv(Run(INIT, steps))
  {
    if steps != [] {
      var prefix := steps[..|steps| - 1];
      StampsGrow(Run(INIT, prefix), steps[|steps| - 1]);
      ReadersRun(prefix);
      ReadersStep(Run(INIT, prefix), steps[|steps| - 1]);
    }
  }

  /** A stat and the read that follows, with anything but this proxy's own steps in between, are one
      reload of its store: the cache is replaced, under the time seen before reading, exactly if that
      time is new and the read succeeds. */
  lemma ReloadIs(s: Shared, s1: Shared, r: nat, ok: bool)
    requires ReaderOf(s1, r) == ReaderOf(Next(s, Stat(r)), r) && |s.stamps| == |s.log|
    requires s.file.Some? <==> s.log != []
    ensures var c, c' := ReaderOf(s, r), ReaderOf(Next(s1, Fetch(r, ok)), r);
      var looks := s.file.Some? && c.stamp != Some(s.stamps[|s.stamps| - 1]);
      var fetched := looks && ok && s1.file.Some?;
      && c'.statted == None && (c'.failed <==> looks && !fetched) && c'.seen == |s.log|
      && c'.policies == (if fetched then Project(s1.file.value) else c.policies)
      && c'.stamp == (if fetched then Some(s.stamps[|s.stamps| - 1]) else c.stamp)
      && c'.version == (if fetched then |s1.log| else c.version)
  {
    hide Project;
  }

  /** If successive writes leave distinct modification times, a proxy that did not fail to read
      answers from a version at least as new as the file's when it took its stamp, and its
      answer is what that version says of the address. */
  lemma ReadersAreFresh(steps: seq<Step>, r: nat, source: Ip)
    requires DistinctStamps(Run(INIT, steps))
    requires var c := ReaderOf(Run(INIT, steps), r); c.statted.None? && !c.failed
    ensures var s := Run(INIT, steps);
      var c := ReaderOf(s, r);
      && c.seen <= c.version <= |s.log|
      && var d := Fold(s.log[..c.version]);
         Lookup(c.policies, source) == if source in d then Some(HostSet(d[source].hosts)) else None
  {
    ReadersRun(steps);
    var s := Run(INIT, steps);
    assert ReaderInv(s, ReaderOf(s, r));
    ProjectIs(Fold(s.log[..ReaderOf(s, r).version]), source);
  }

  /** The versions that one proxy answers from never go back, failed reads included. */
  lemma {:induction false} VersionsNeverGoBack(steps: seq<Step>, more: seq<Step>, r: nat)
    requires DistinctStamps(Run(INIT, steps + more))
    ensures ReaderOf(Run(INIT, steps), r).version <= ReaderOf(Run(INIT, steps + more), r).version
  {
    hide ReadersInv, WritersInv, Sound, Fold, Project, Apply, Read;
    if more == [] {
      assert steps + more == steps;
    } else {
      var prefix := steps + more[..|more| - 1];
      assert (steps + more)[..|steps + more| - 1] == prefix;
      StampsGrow(Run(INIT, prefix), more[|more| - 1]);
      VersionsNeverGoBack(steps, more[..|more| - 1], r);
      ReadersRun(prefix);
      VersionStep(Run(INIT, prefix), more[|more| - 1], r);
    }
  }

  lemma VersionStep(s: Shared, step: Step, r: nat)
    requires ReadersInv(s)
    ensures ReaderOf(s, r).version <= ReaderOf(Next(s, step), r).version
  {
    hide Sound, Fold, Project, Apply, Read;
    assert ReaderInv(s, ReaderOf(s, r));
  }

  lemma VersionGrows(s: Shared, step: Step, r: nat)
    requires ReaderOf(s, r).version <= |s.log|
    ensures ReaderOf(Next(s, step), r).version <= |Next(s, step).log|
  {
    hide Fold, Project, Apply, Read;
  }

  lemma {:induction false} VersionsExist(steps: seq<Step>, r: nat)
    ensures ReaderOf(Run(INIT, steps), r).version <= |Run(INIT, steps).log|
  {
    if steps != [] {
      VersionsExist(steps[..|steps| - 1], r);
      VersionGrows(Run(INIT, steps[..|steps| - 1]), steps[|steps| - 1], r);
    }
  }

  /** The distinct times are needed: in every run, whatever the times before, a commit is missed by
      a proxy that looks at the file next, as if it were up to date, exactly when it leaves the
      time that the proxy's cache is stamped with. */
  lemma RepeatedStampGoesStale(steps: seq<Step>, p: nat, r: nat, stamp: int)
    ensures var s := Run(INIT, steps);
      WriterOf(s, p).Holding? && Apply(WriterOf(s, p).m, WriterOf(s, p).data).Some? ==>
        var c := ReaderOf(Next(Next(s, Replace(p, stamp)), Stat(r)), r);
        (c.statted.None? && !c.failed && c.version < c.seen) <==> ReaderOf(s, r).stamp == Some(stamp)
  {
    hide Apply, Fold, Project, Read, Run;
    VersionsExist(steps, r);
  }

  lemma OneMore(steps: seq<Step>, step: Step)
    ensures Run(INIT, steps + [step]) == Next(Run(INIT, steps), step)
  {
    hide Next;
    assert (steps + [step])[..|steps + [step]| - 1] == steps;
  }

  /** One writer registers a source without hosts, undisturbed. */
  lemma Registers(steps: seq<Step>, m: Mutation, stamp: int) returns (more: seq<Step>)
    requires m.Register? && m.env != "" && m.hosts == []
    requires Run(INIT, steps).lock.None? && WriterOf(Run(INIT, steps), 0).Idle?
    ensures var s, s' := Run(INIT, steps), Run(INIT, more);
      && s'.file == Some(WithoutEnv(Fold(s.log), m.env)[m.ip := Policy(m.env, [])])
      && s'.readers == s.readers && s'.log == s.log + [m] && s'.stamps == s.stamps + [stamp]
      && s'.lock.None? && WriterOf(s', 0).Idle?
  {
    hide Run, Read, Fold, Project, WritersInv, WithoutEnv;
    WritersLinearize(steps);
    assert CleanHosts([]) == Some([]);
    OneMore(steps, Lock(0, m));
    OneMore(steps + [Lock(0, m)], Load(0));
    OneMore(steps + [Lock(0, m)] + [Load(0)], Replace(0, stamp));
    OneMore(steps + [Lock(0, m)] + [Load(0)] + [Replace(0, stamp)], Unlock(0));
    more := steps + [Lock(0, m)] + [Load(0)] + [Replace(0, stamp)] + [Unlock(0)];
  }

  /** A registration, and a proxy that reads it. */
  lemma RegistersAndReads(env: string, a: Ip, stamp: int) returns (steps: seq<Step>)
    requires env != ""
    ensures var s := Run(INIT, steps);
      && s.lock.None? && WriterOf(s, 0).Idle? && |s.log| == 1
      && ReaderOf(s, 0) == Reader(None, Project(map[a := Policy(env, [])]), Some(stamp), 1, 1, false)
  {
    hide Run, Fold, Project;
    NothingRun();
    steps := Registers([], Register(env, a, []), stamp);
    OneMore(steps, Stat(0));
    OneMore(steps + [Stat(0)], Fetch(0, true));
    steps := steps + [Stat(0)] + [Fetch(0, true)];
  }

  /** Two registrations that leave the same time, and a proxy that read between them: it looks up
      to date, and answers nothing for an address that the document has. */
  lemma StaleAnswer(env: string, env': string, a: Ip, a': Ip, stamp: int) returns (steps: seq<Step>)
    requires env != "" && env' != "" && a != a'
    ensures var s := Run(INIT, steps);
      var c := ReaderOf(s, 0);
      && s.file.Some? && a' in s.file.value && s.file.value[a'].env == env'
      && c.statted.None? && !c.failed && c.seen == |s.log| && Lookup(c.policies, a') == None
  {
    hide Run, Fold, Project, Lookup, WithoutEnv;
    ProjectIs(map[a := Policy(env, [])], a');
    steps := RegistersAndReads(env, a, stamp);
    steps := Registers(steps, Register(env', a', []), stamp);
    OneMore(steps, Stat(0));
    steps := steps + [Stat(0)];
  }

  lemma NothingRun()
    ensures Run(INIT, []) == INIT && Fold([]) == map[]
  {
  }
}
