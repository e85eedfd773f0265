/** What the set-up runs of module Setup promise: the status each returns
    is the first failing call in source order, the pointers a successful
    run leaves live, the pointers each run may touch, and that the handle
    invariant of Resources holds throughout, so no handle is released twice
    and none that existed before a run is released by it. */
module SetupLemmas {
  import opened Wrappers
  import opened Resources
  import opened Setup

  /** The outcome of calls in order is Done exactly when every call
      succeeds; otherwise it is the HRESULT of the first failing call, and
      every call before that one succeeded. */
  lemma {:induction false} OutcomeSpec(hrs: seq<HResult>)
    ensures Outcome(hrs).Done? <==> forall k | 0 <= k < |hrs| :: Succeeded(hrs[k])
    ensures Outcome(hrs).Failed? ==>
      exists k | 0 <= k < |hrs| ::
        && Outcome(hrs).hr == hrs[k] && !Succeeded(hrs[k])
        && forall j | 0 <= j < k :: Succeeded(hrs[j])
  {
    if |hrs| > 0 && Succeeded(hrs[0]) {
      var rest := hrs[1..];
      OutcomeSpec(rest);
      assert forall k | 1 <= k < |hrs| :: hrs[k] == rest[k - 1];
      if Outcome(rest).Failed? {
        var k :| 0 <= k < |rest| && Outcome(rest).hr == rest[k] && !Succeeded(rest[k])
          && forall j | 0 <= j < k :: Succeeded(rest[j]);
        assert hrs[k + 1] == rest[k];
      }
    }
  }

  /** Running two groups of calls in a row: the second group only matters
      when the first succeeds. */
  lemma {:induction false} OutcomeAppend(a: seq<HResult>, b: seq<HResult>)
    ensures Outcome(a + b) == if Outcome(a).Failed? then Outcome(a) else Outcome(b)
  {
    if |a| == 0 {
      assert a + b == b;
    } else {
      assert (a + b)[0] == a[0];
      assert (a + b)[1..] == a[1..] + b;
      OutcomeAppend(a[1..], b);
    }
  }

  /** One step of the outcome: call k decides unless it succeeds. */
  lemma OutcomeFrom(hrs: seq<HResult>, k: nat)
    requires k < |hrs|
    ensures Outcome(hrs[k..]) == if !Succeeded(hrs[k]) then Failed(hrs[k]) else Outcome(hrs[k + 1..])
  {
    assert hrs[k..][1..] == hrs[k + 1..];
  }

  /** A creating call keeps the handle invariant and the growth since a. */
  lemma CreateKeeps(a: Store, r: Run, p: Platform, s: Slot, t: set<Slot>)
    requires Valid(r.handles) && Grows(a, r.handles, t) && s in t
    ensures Valid(Create(r, p, s).handles) && Grows(a, Create(r, p, s).handles, t)
  {
    if r.status.Done? && Succeeded(p.create(s)) {
      AcquiredValid(r.handles, s);
      AcquiredGrows(a, r.handles, s, t);
    }
  }

  /** A creating call does nothing after a throw; otherwise its status is
      that of its own HRESULT, its slot is live if it succeeded, and no
      other slot changes. */
  lemma CreateEffect(r: Run, p: Platform, s: Slot)
    ensures var r' := Create(r, p, s);
      && r'.shouts == r.shouts && r'.buffers == r.buffers
      && (r.status.Failed? ==> r' == r)
      && (r.status.Done? ==> r'.status == Outcome([p.create(s)]))
      && (r'.status.Failed? ==> r'.handles == r.handles)
      && (r'.status.Done? ==> Held(r'.handles, s).Some?)
      && (forall x | x != s :: Held(r'.handles, x) == Held(r.handles, x))
  {
    assert [p.create(s)][1..] == [];
  }

  /** retire of a local that was null when the run began keeps the
      invariant and the growth. */
  lemma ReleaseKeeps(a: Store, r: Run, s: Slot, t: set<Slot>)
    requires Valid(r.handles) && Grows(a, r.handles, t) && s in t && Held(a, s) == None
    ensures Valid(Release(r, s).handles) && Grows(a, Release(r, s).handles, t)
  {
    RetiredValid(r.handles, s);
    RetiredGrows(a, r.handles, s, t);
  }

  /** compileShader keeps the invariant and touches only the two blobs. */
  lemma CompileKeeps(r: Run, c: Compiled)
    requires Valid(r.handles) && LocalsNull(r.handles)
    ensures Valid(CompileRun(r, c).handles) && Grows(r.handles, CompileRun(r, c).handles, BlobSlots)
  {
    var a := r.handles;
    GrowsRefl(a, BlobSlots);
    if r.status.Done? {
      var h1 := if c.code then Acquired(a, Temp(ShaderBlob)) else a;
      if c.code {
        AcquiredValid(a, Temp(ShaderBlob));
        AcquiredGrows(a, a, Temp(ShaderBlob), BlobSlots);
      }
      var h2 := if c.errors.Some? then Acquired(h1, Temp(ErrorBlob)) else h1;
      if c.errors.Some? {
        AcquiredValid(h1, Temp(ErrorBlob));
        AcquiredGrows(a, h1, Temp(ErrorBlob), BlobSlots);
      }
      var h3 := Retired(h2, Temp(ErrorBlob));
      RetiredValid(h2, Temp(ErrorBlob));
      RetiredGrows(a, h2, Temp(ErrorBlob), BlobSlots);
      if !Succeeded(c.hr) {
        RetiredValid(h3, Temp(ShaderBlob));
        RetiredGrows(a, h3, Temp(ShaderBlob), BlobSlots);
      }
    }
  }

  /** compileShader: its status is the compiler's HRESULT, and it shouts
      the error text of a failed compile when the compiler produced one. */
  lemma CompileStatus(r: Run, c: Compiled)
    requires r.status.Done?
    ensures var r' := CompileRun(r, c);
      && r'.status == Outcome([c.hr])
      && r'.shouts == r.shouts + CompileShouts(c) && r'.buffers == r.buffers
  {
    assert [c.hr][1..] == [];
  }

  /** compileShader from null blobs: the error blob is never left live; the
      shader blob is left live (as the newest handle) only by a successful
      compile that produced code; no other slot changes. */
  lemma CompileLive(r: Run, c: Compiled)
    requires LocalsNull(r.handles)
    ensures var r' := CompileRun(r, c);
      && Held(r'.handles, Temp(ErrorBlob)) == None
      && Held(r'.handles, Temp(ShaderBlob)) ==
           (if r.status.Done? && Succeeded(c.hr) && c.code then Some(r.handles.next) else None)
      && (forall x | x !in BlobSlots :: Held(r'.handles, x) == Held(r.handles, x))
  {
  }

  /** compileShader from null blobs releases exactly the blobs it frees,
      each once: the error blob if there is one, then on failure the shader
      blob. */
  lemma CompileReleases(r: Run, c: Compiled)
    requires r.status.Done? && LocalsNull(r.handles)
    ensures var r' := CompileRun(r, c);
      var sb := r.handles.next;
      var eb := if c.code then sb + 1 else sb;
      r'.handles.released ==
        r.handles.released + (if c.errors.Some? then [eb] else []) + (if !Succeeded(c.hr) && c.code then [sb] else [])
  {
  }

  /** One creating step: nothing runs after a throw; otherwise its status is
      that of its own HRESULT, a failure changes no pointer, a success
      leaves its pointer live and records a buffer's descriptor, and no
      other pointer changes. */
  lemma StepEffect(r: Run, p: Platform, s: Step)
    ensures var r' := StepRun(r, p, s);
      && r'.shouts == r.shouts
      && (r.status.Failed? ==> r' == r)
      && (r.status.Done? ==> r'.status == Outcome([p.create(Member(s.f))]))
      && (r'.status.Failed? ==> r'.handles == r.handles)
      && (r'.status.Done? ==> Held(r'.handles, Member(s.f)).Some?)
      && (forall x | x != Member(s.f) :: Held(r'.handles, x) == Held(r.handles, x))
      && r'.buffers == (if r'.status.Done? && s.Buffer? then r.buffers[s.f := s.desc] else r.buffers)
  {
    CreateEffect(r, p, Member(s.f));
  }

  /** Steps in order: nothing runs after an earlier throw; otherwise the
      status is the first failing call of the steps, and nothing is
      shouted. */
  lemma {:induction false} StepsStatus(r: Run, p: Platform, steps: seq<Step>)
    ensures var r' := StepsRun(r, p, steps);
      && r'.shouts == r.shouts
      && (r.status.Failed? ==> r' == r)
      && (r.status.Done? ==> r'.status == Outcome(StepsResults(p, steps)))
    decreases |steps|
  {
    if |steps| > 0 {
      var hr := p.create(Member(steps[0].f));
      StepEffect(r, p, steps[0]);
      StepsStatus(StepRun(r, p, steps[0]), p, steps[1..]);
      OutcomeAppend([hr], StepsResults(p, steps[1..]));
      assert [hr][1..] == [];
    }
  }

  /** Running a step list headed by s is running s, then the rest. */
  lemma StepsRunCons(r: Run, p: Platform, s: Step, rest: seq<Step>)
    ensures StepsRun(r, p, [s] + rest) == StepsRun(StepRun(r, p, s), p, rest)
  {
    assert ([s] + rest)[1..] == rest;
  }

  /** After a throw no step runs. */
  lemma {:induction false} StepsHalted(r: Run, p: Platform, steps: seq<Step>)
    requires r.status.Failed?
    ensures StepsRun(r, p, steps) == r
    decreases |steps|
  {
    if |steps| > 0 {
      StepsHalted(StepRun(r, p, steps[0]), p, steps[1..]);
    }
  }

  /** Steps keep the handle invariant and the growth since a, as long as
      every pointer they create may be touched. */
  lemma {:induction false} StepsKeeps(a: Store, r: Run, p: Platform, steps: seq<Step>, t: set<Slot>)
    requires Valid(r.handles) && Grows(a, r.handles, t) && StepsSlots(steps) <= t
    ensures Valid(StepsRun(r, p, steps).handles) && Grows(a, StepsRun(r, p, steps).handles, t)
    decreases |steps|
  {
    if |steps| > 0 {
      StepsSlotsCons(steps);
      CreateKeeps(a, r, p, Member(steps[0].f), t);
      assert StepRun(r, p, steps[0]).handles == Create(r, p, Member(steps[0].f)).handles;
      StepsKeeps(a, StepRun(r, p, steps[0]), p, steps[1..], t);
    }
  }

  /** Steps change no pointer and no buffer descriptor but their own. */
  lemma {:induction false} StepsFrame(r: Run, p: Platform, steps: seq<Step>)
    ensures var r' := StepsRun(r, p, steps);
      && (forall x | x !in StepsSlots(steps) :: Held(r'.handles, x) == Held(r.handles, x))
      && (forall f | Member(f) !in StepsSlots(steps) ::
            (f in r'.buffers <==> f in r.buffers) && (f in r.buffers ==> r'.buffers[f] == r.buffers[f]))
    decreases |steps|
  {
    if |steps| > 0 {
      StepsSlotsCons(steps);
      StepEffect(r, p, steps[0]);
      StepsFrame(StepRun(r, p, steps[0]), p, steps[1..]);
    }
  }

  /** Steps create only member pointers, so they leave the locals null. */
  lemma {:induction false} StepsLocals(r: Run, p: Platform, steps: seq<Step>)
    requires LocalsNull(r.handles)
    ensures LocalsNull(StepsRun(r, p, steps).handles)
    decreases |steps|
  {
    if |steps| > 0 {
      StepEffect(r, p, steps[0]);
      StepsLocals(StepRun(r, p, steps[0]), p, steps[1..]);
    }
  }

  /** A creating call never empties a pointer, so steps keep every live
      pointer live. */
  lemma {:induction false} StepsKeepHeld(r: Run, p: Platform, steps: seq<Step>, x: Slot)
    requires Held(r.handles, x).Some?
    ensures Held(StepsRun(r, p, steps).handles, x).Some?
    decreases |steps|
  {
    if |steps| > 0 {
      StepEffect(r, p, steps[0]);
      StepsKeepHeld(StepRun(r, p, steps[0]), p, steps[1..], x);
    }
  }

  /** After steps that all succeed, every pointer they create is live. */
  lemma {:induction false} StepsLive(r: Run, p: Platform, steps: seq<Step>)
    ensures var r' := StepsRun(r, p, steps);
      r'.status.Done? ==> forall x | x in StepsSlots(steps) :: Held(r'.handles, x).Some?
    decreases |steps|
  {
    if |steps| > 0 {
      StepsSlotsCons(steps);
      var r1 := StepRun(r, p, steps[0]);
      StepEffect(r, p, steps[0]);
      StepsStatus(r1, p, steps[1..]);
      StepsLive(r1, p, steps[1..]);
      if StepsRun(r, p, steps).status.Done? {
        StepsKeepHeld(r1, p, steps[1..], Member(steps[0].f));
      }
    }
  }

  lemma StepsSlotsCons(s: seq<Step>)
    requires |s| > 0
    ensures StepsSlots(s) == {Member(s[0].f)} + StepsSlots(s[1..])
  {
    StepsSlotsFrom(s, 0);
    assert s[0..] == s;
  }

  /** The pointers of steps are those of the first step and of the rest. */
  lemma StepsSlotsFrom(s: seq<Step>, k: nat)
    requires k < |s|
    ensures StepsSlots(s[k..]) == {Member(s[k].f)} + StepsSlots(s[k + 1..])
  {
    forall x | x in StepsSlots(s[k..]) ensures x in {Member(s[k].f)} + StepsSlots(s[k + 1..]) {
      var j :| 0 <= j < |s[k..]| && x == Member(s[k..][j].f);
      if j > 0 {
        assert x == Member(s[k + 1..][j - 1].f);
      }
    }
    forall x | x in {Member(s[k].f)} + StepsSlots(s[k + 1..]) ensures x in StepsSlots(s[k..]) {
      if x == Member(s[k].f) {
        assert x == Member(s[k..][0].f);
      } else {
        var j :| 0 <= j < |s[k + 1..]| && x == Member(s[k + 1..][j].f);
        assert x == Member(s[k..][j + 1].f);
      }
    }
  }

  /** After steps that all succeed, with no field created twice, every
      buffer step's field holds that step's descriptor. */
  lemma {:induction false} StepsBuffers(r: Run, p: Platform, steps: seq<Step>)
    requires DistinctFields(steps)
    ensures var r' := StepsRun(r, p, steps);
      r'.status.Done? ==>
        forall k | 0 <= k < |steps| && steps[k].Buffer? :: steps[k].f in r'.buffers && r'.buffers[steps[k].f] == steps[k].desc
    decreases |steps|
  {
    if |steps| > 0 {
      var r1 := StepRun(r, p, steps[0]);
      var rest := steps[1..];
      StepEffect(r, p, steps[0]);
      StepsStatus(r1, p, rest);
      StepsBuffers(r1, p, rest);
      StepsFrame(r1, p, rest);
      assert Member(steps[0].f) !in StepsSlots(rest) by {
        forall j | 0 <= j < |rest| ensures rest[j].f != steps[0].f {
          assert rest[j] == steps[j + 1];
        }
      }
      if StepsRun(r, p, steps).status.Done? {
        forall k | 0 <= k < |steps| && steps[k].Buffer?
          ensures steps[k].f in StepsRun(r, p, steps).buffers && StepsRun(r, p, steps).buffers[steps[k].f] == steps[k].desc
        {
          if k > 0 {
            assert steps[k] == rest[k - 1];
          }
        }
      }
    }
  }

  /** One shaderSetup block keeps the invariant and touches only its own
      slots. */
  lemma StageKeeps(r: Run, p: Platform, s: Stage, t: set<Slot>)
    requires Valid(r.handles) && LocalsNull(r.handles) && StageSlots(s) <= t
    ensures Valid(StageRun(r, p, s).handles) && Grows(r.handles, StageRun(r, p, s).handles, t)
  {
    var a := r.handles;
    var r1 := CompileRun(r, p.compile(s.entry));
    CompileKeeps(r, p.compile(s.entry));
    GrowsWiden(a, r1.handles, BlobSlots, t);
    if r1.status.Done? {
      var r2 := Create(r1, p, Member(s.shader));
      CreateKeeps(a, r1, p, Member(s.shader), t);
      var r3 := if s.layout.Some? then Create(r2, p, Member(s.layout.value)) else r2;
      if s.layout.Some? {
        CreateKeeps(a, r2, p, Member(s.layout.value), t);
      }
      ReleaseKeeps(a, r3, Temp(ShaderBlob), t);
    }
  }

  /** One shaderSetup block: nothing runs after an earlier throw; otherwise
      its status is the first failing call among the compile, the shader and
      the layout, and only a failed compile shouts. */
  lemma StageStatus(r: Run, p: Platform, s: Stage)
    ensures var r' := StageRun(r, p, s);
      && r'.buffers == r.buffers
      && (r.status.Failed? ==> r' == r)
      && (r.status.Done? ==> r'.status == Outcome(StageResults(p, s)))
      && (r.status.Done? ==> r'.shouts == r.shouts + CompileShouts(p.compile(s.entry)))
      && (r'.status.Done? ==> r'.shouts == r.shouts)
      && r.shouts <= r'.shouts && |r'.shouts| <= |r.shouts| + 1
  {
    if r.status.Done? {
      var c := p.compile(s.entry);
      var hrs := StageResults(p, s);
      OutcomeFrom(hrs, 0);
      OutcomeFrom(hrs, 1);
      assert hrs[0..] == hrs;
      if s.layout.Some? {
        OutcomeFrom(hrs, 2);
        assert hrs[3..] == [];
      } else {
        assert hrs[2..] == [];
      }
      assert [c.hr][1..] == [];
    }
  }

  /** One shaderSetup block from null locals: no local is live afterwards,
      only the block's own slots change, and on success the shader and the
      layout are live. */
  lemma StageLive(r: Run, p: Platform, s: Stage)
    requires LocalsNull(r.handles)
    ensures var r' := StageRun(r, p, s);
      && LocalsNull(r'.handles)
      && (r'.status.Done? ==> Held(r'.handles, Member(s.shader)).Some?)
      && (r'.status.Done? && s.layout.Some? ==> Held(r'.handles, Member(s.layout.value)).Some?)
      && (forall x | x !in StageSlots(s) :: Held(r'.handles, x) == Held(r.handles, x))
  {
    StageMade(r, p, s);
    StageFrame(r, p, s);
  }

  /** The objects a block makes are live after it, and the blobs are not. */
  lemma StageMade(r: Run, p: Platform, s: Stage)
    requires LocalsNull(r.handles)
    ensures var r' := StageRun(r, p, s);
      && LocalsNull(r'.handles)
      && (r'.status.Done? ==> Held(r'.handles, Member(s.shader)).Some?)
      && (r'.status.Done? && s.layout.Some? ==> Held(r'.handles, Member(s.layout.value)).Some?)
  {
    if r.status.Done? {
      var r1 := CompileRun(r, p.compile(s.entry));
      CompileLive(r, p.compile(s.entry));
      CompileStatus(r, p.compile(s.entry));
      if r1.status.Done? {
        var r2 := Create(r1, p, Member(s.shader));
        CreateEffect(r1, p, Member(s.shader));
        if s.layout.Some? {
          CreateEffect(r2, p, Member(s.layout.value));
        }
      }
    }
  }

  /** A block touches no pointer outside its own slots. */
  lemma StageFrame(r: Run, p: Platform, s: Stage)
    requires LocalsNull(r.handles)
    ensures forall x | x !in StageSlots(s) :: Held(StageRun(r, p, s).handles, x) == Held(r.handles, x)
  {
    if r.status.Done? {
      var r1 := CompileRun(r, p.compile(s.entry));
      CompileLive(r, p.compile(s.entry));
      CompileStatus(r, p.compile(s.entry));
      if r1.status.Done? {
        var r2 := Create(r1, p, Member(s.shader));
        CreateEffect(r1, p, Member(s.shader));
        if s.layout.Some? {
          CreateEffect(r2, p, Member(s.layout.value));
        }
      }
    }
  }

  /** Point forms of StageLive, so that chains of blocks need not carry its
      frame quantifier. */
  lemma StageLocals(r: Run, p: Platform, s: Stage)
    requires LocalsNull(r.handles)
    ensures LocalsNull(StageRun(r, p, s).handles)
  {
    StageLive(r, p, s);
  }

  lemma StageHeld(r: Run, p: Platform, s: Stage, x: Slot)
    requires LocalsNull(r.handles) && StageRun(r, p, s).status.Done? && x in StageSlots(s) && x.Member?
    ensures Held(StageRun(r, p, s).handles, x).Some?
  {
    StageLive(r, p, s);
  }

  /** A shaderSetup block never empties a member pointer. */
  lemma StageKeepsHeld(r: Run, p: Platform, s: Stage, x: Slot)
    requires LocalsNull(r.handles) && x.Member? && Held(r.handles, x).Some?
    ensures Held(StageRun(r, p, s).handles, x).Some?
  {
    if r.status.Done? {
      var r1 := CompileRun(r, p.compile(s.entry));
      CompileLive(r, p.compile(s.entry));
      if r1.status.Done? {
        var r2 := Create(r1, p, Member(s.shader));
        CreateEffect(r1, p, Member(s.shader));
        if s.layout.Some? {
          CreateEffect(r2, p, Member(s.layout.value));
        }
      }
    }
  }

  /** shaderSetup blocks in order: nothing runs after an earlier throw;
      otherwise the status is the first failing call of the blocks; a run
      that succeeds shouts nothing, and a failing one at most once. */
  lemma {:induction false} StagesStatus(r: Run, p: Platform, stages: seq<Stage>)
    ensures var r' := StagesRun(r, p, stages);
      && r'.buffers == r.buffers
      && (r.status.Failed? ==> r' == r)
      && (r.status.Done? ==> r'.status == Outcome(StagesResults(p, stages)))
      && (r'.status.Done? ==> r'.shouts == r.shouts)
      && r.shouts <= r'.shouts && |r'.shouts| <= |r.shouts| + 1
    decreases |stages|
  {
    if |stages| > 0 {
      StageStatus(r, p, stages[0]);
      StagesStatus(StageRun(r, p, stages[0]), p, stages[1..]);
      OutcomeAppend(StageResults(p, stages[0]), StagesResults(p, stages[1..]));
    }
  }

  /** Running blocks from position k on is running block k, then the rest. */
  lemma StagesRunFrom(r: Run, p: Platform, stages: seq<Stage>, k: nat)
    requires k < |stages|
    ensures StagesRun(r, p, stages[k..]) == StagesRun(StageRun(r, p, stages[k]), p, stages[k + 1..])
  {
    assert stages[k..][1..] == stages[k + 1..];
  }

  /** shaderSetup blocks keep the invariant and the growth since a. */
  lemma {:induction false} StagesKeeps(a: Store, r: Run, p: Platform, stages: seq<Stage>, t: set<Slot>)
    requires Valid(r.handles) && LocalsNull(r.handles) && Grows(a, r.handles, t) && StagesSlots(stages) <= t
    ensures Valid(StagesRun(r, p, stages).handles) && Grows(a, StagesRun(r, p, stages).handles, t)
    decreases |stages|
  {
    if |stages| > 0 {
      var r1 := StageRun(r, p, stages[0]);
      StageKeeps(r, p, stages[0], t);
      GrowsTrans(a, r.handles, r1.handles, t);
      StageLocals(r, p, stages[0]);
      StagesKeeps(a, r1, p, stages[1..], t);
    }
  }

  /** shaderSetup blocks from null locals leave no local live and change
      only their own slots. */
  lemma {:induction false} StagesFrame(r: Run, p: Platform, stages: seq<Stage>)
    requires LocalsNull(r.handles)
    ensures var r' := StagesRun(r, p, stages);
      && LocalsNull(r'.handles)
      && (forall x | x !in StagesSlots(stages) :: Held(r'.handles, x) == Held(r.handles, x))
    decreases |stages|
  {
    if |stages| > 0 {
      StageLive(r, p, stages[0]);
      StagesFrame(StageRun(r, p, stages[0]), p, stages[1..]);
    }
  }

  lemma {:induction false} StagesKeepHeld(r: Run, p: Platform, stages: seq<Stage>, x: Slot)
    requires LocalsNull(r.handles) && x.Member? && Held(r.handles, x).Some?
    ensures Held(StagesRun(r, p, stages).handles, x).Some?
    decreases |stages|
  {
    if |stages| > 0 {
      StageKeepsHeld(r, p, stages[0], x);
      StageLocals(r, p, stages[0]);
      StagesKeepHeld(StageRun(r, p, stages[0]), p, stages[1..], x);
    }
  }

  /** After shaderSetup blocks that all succeed, every shader and layout
      they create is live. */
  lemma {:induction false} StagesLive(r: Run, p: Platform, stages: seq<Stage>)
    requires LocalsNull(r.handles)
    ensures var r' := StagesRun(r, p, stages);
      r'.status.Done? ==> forall x | x in StagesSlots(stages) && x.Member? :: Held(r'.handles, x).Some?
    decreases |stages|
  {
    if |stages| > 0 {
      var r1 := StageRun(r, p, stages[0]);
      var rest := stages[1..];
      StageLocals(r, p, stages[0]);
      StagesStatus(r1, p, rest);
      StagesLive(r1, p, rest);
      if StagesRun(r, p, stages).status.Done? {
        forall x | x in StageSlots(stages[0]) && x.Member?
          ensures Held(StagesRun(r, p, stages).handles, x).Some?
        {
          StageHeld(r, p, stages[0], x);
          StagesKeepHeld(r1, p, rest, x);
        }
      }
    }
  }

  lemma StagesSlotsFrom(s: seq<Stage>, k: nat)
    requires k < |s|
    ensures StagesSlots(s[k..]) == StageSlots(s[k]) + StagesSlots(s[k + 1..])
  {
    assert s[k..][1..] == s[k + 1..];
  }

  /** The slots of the five blocks of shaderSetup. */
  lemma ShaderSlotsAre()
    ensures StagesSlots(ShaderStages) == ShaderSlots
  {
    var s := ShaderStages;
    assert StagesSlots(s[5..]) == BlobSlots;
    StagesSlotsFrom(s, 4);
    StagesSlotsFrom(s, 3);
    StagesSlotsFrom(s, 2);
    StagesSlotsFrom(s, 1);
    StagesSlotsFrom(s, 0);
    assert s[0..] == s;
  }

  /** The pointers deviceSetup creates after the render target view. */
  lemma DeviceStepsSlots()
    ensures StepsSlots(DeviceSteps) == {Member(BlendState), Member(DepthTex), Member(DepthTexView), Member(TexSampler)}
  {
    var s := DeviceSteps;
    assert Member(s[0].f) in StepsSlots(s) && Member(s[1].f) in StepsSlots(s);
    assert Member(s[2].f) in StepsSlots(s) && Member(s[3].f) in StepsSlots(s);
  }

  /** deviceSetup keeps the invariant and touches only device slots. */
  lemma DeviceKeeps(r: Run, p: Platform)
    requires Valid(r.handles) && LocalsNull(r.handles)
    ensures Valid(DeviceRun(r, p).handles) && Grows(r.handles, DeviceRun(r, p).handles, DeviceSlots)
  {
    var a := r.handles;
    var t := DeviceSlots;
    GrowsRefl(a, t);
    if r.status.Done? && FirstSuccess(p.createDevice, DriverOrder).Some? {
      var h1 := Acquired(a, Member(SwapChain));
      AcquiredValid(a, Member(SwapChain));
      AcquiredGrows(a, a, Member(SwapChain), t);
      var h2 := Acquired(h1, Member(Device));
      AcquiredValid(h1, Member(Device));
      AcquiredGrows(a, h1, Member(Device), t);
      AcquiredValid(h2, Member(Context));
      AcquiredGrows(a, h2, Member(Context), t);
      var r0 := r.(handles := Acquired(h2, Member(Context)));
      var r1 := Create(r0, p, Temp(BackBufferTex));
      CreateKeeps(a, r0, p, Temp(BackBufferTex), t);
      if r1.status.Done? {
        var r2 := Create(r1, p, Member(BBufferTarget));
        CreateKeeps(a, r1, p, Member(BBufferTarget), t);
        var r3 := Release(r2, Temp(BackBufferTex));
        ReleaseKeeps(a, r2, Temp(BackBufferTex), t);
        DeviceStepsSlots();
        StepsKeeps(a, r3, p, DeviceSteps, t);
      }
    }
  }

  /** deviceSetup. If no driver type yields a device, the last failure is
      thrown and nothing changes. Otherwise its status is the first failing
      creation after the device, in source order. */
  lemma DeviceStatus(r: Run, p: Platform)
    ensures var r' := DeviceRun(r, p);
      && r'.shouts == r.shouts && r'.buffers == r.buffers
      && (r.status.Failed? ==> r' == r)
      && (r.status.Done? && FirstSuccess(p.createDevice, DriverOrder).None? ==>
            r'.status == Failed(p.createDevice(Software)) && r'.handles == r.handles)
      && (r.status.Done? && FirstSuccess(p.createDevice, DriverOrder).Some? ==>
            r'.status == Outcome(DeviceResults(p)))
  {
    if r.status.Done? && FirstSuccess(p.createDevice, DriverOrder).Some? {
      var r0 := r.(handles := Acquired(Acquired(Acquired(r.handles, Member(SwapChain)), Member(Device)), Member(Context)));
      var r1 := Create(r0, p, Temp(BackBufferTex));
      CreateEffect(r0, p, Temp(BackBufferTex));
      var r2 := Create(r1, p, Member(BBufferTarget));
      CreateEffect(r1, p, Member(BBufferTarget));
      StepsStatus(Release(r2, Temp(BackBufferTex)), p, DeviceSteps);
      var head := [p.create(Temp(BackBufferTex)), p.create(Member(BBufferTarget))];
      OutcomeAppend(head, StepsResults(p, DeviceSteps));
      assert head[0..] == head;
      OutcomeFrom(head, 0);
      OutcomeFrom(head, 1);
      assert head[2..] == [];
      assert [p.create(Temp(BackBufferTex))][1..] == [];
      assert [p.create(Member(BBufferTarget))][1..] == [];
    }
  }

  /** deviceSetup from null locals leaves the back-buffer texture, like
      every local, null. */
  lemma DeviceLocals(r: Run, p: Platform)
    requires LocalsNull(r.handles)
    ensures LocalsNull(DeviceRun(r, p).handles)
  {
    if r.status.Done? && FirstSuccess(p.createDevice, DriverOrder).Some? {
      var r0 := r.(handles := Acquired(Acquired(Acquired(r.handles, Member(SwapChain)), Member(Device)), Member(Context)));
      var r1 := Create(r0, p, Temp(BackBufferTex));
      if r1.status.Done? {
        var r2 := Create(r1, p, Member(BBufferTarget));
        StepsLocals(Release(r2, Temp(BackBufferTex)), p, DeviceSteps);
      }
    }
  }

  /** deviceSetup changes only device slots. */
  lemma DeviceFrame(r: Run, p: Platform)
    ensures forall x | x !in DeviceSlots :: Held(DeviceRun(r, p).handles, x) == Held(r.handles, x)
  {
    if r.status.Done? && FirstSuccess(p.createDevice, DriverOrder).Some? {
      var r0 := r.(handles := Acquired(Acquired(Acquired(r.handles, Member(SwapChain)), Member(Device)), Member(Context)));
      var r1 := Create(r0, p, Temp(BackBufferTex));
      CreateEffect(r0, p, Temp(BackBufferTex));
      if r1.status.Done? {
        var r2 := Create(r1, p, Member(BBufferTarget));
        CreateEffect(r1, p, Member(BBufferTarget));
        DeviceStepsSlots();
        StepsFrame(Release(r2, Temp(BackBufferTex)), p, DeviceSteps);
      }
    }
  }

  /** deviceSetup: once a device exists the swap chain, device and context
      are live. */
  lemma DeviceCore(r: Run, p: Platform)
    requires r.status.Done? && FirstSuccess(p.createDevice, DriverOrder).Some?
    ensures var r' := DeviceRun(r, p);
      Held(r'.handles, Member(SwapChain)).Some? && Held(r'.handles, Member(Device)).Some?
      && Held(r'.handles, Member(Context)).Some?
  {
    var r0 := r.(handles := Acquired(Acquired(Acquired(r.handles, Member(SwapChain)), Member(Device)), Member(Context)));
    var r1 := Create(r0, p, Temp(BackBufferTex));
    CreateEffect(r0, p, Temp(BackBufferTex));
    if r1.status.Done? {
      var r2 := Create(r1, p, Member(BBufferTarget));
      CreateEffect(r1, p, Member(BBufferTarget));
      var r3 := Release(r2, Temp(BackBufferTex));
      StepsKeepHeld(r3, p, DeviceSteps, Member(SwapChain));
      StepsKeepHeld(r3, p, DeviceSteps, Member(Device));
      StepsKeepHeld(r3, p, DeviceSteps, Member(Context));
    }
  }

  /** After a successful deviceSetup every pointer it sets is live. */
  lemma DeviceLive(r: Run, p: Platform)
    ensures var h := DeviceRun(r, p).handles;
      DeviceRun(r, p).status.Done? ==>
        && Held(h, Member(SwapChain)).Some? && Held(h, Member(Device)).Some? && Held(h, Member(Context)).Some?
        && Held(h, Member(BBufferTarget)).Some? && Held(h, Member(BlendState)).Some?
        && Held(h, Member(DepthTex)).Some? && Held(h, Member(DepthTexView)).Some? && Held(h, Member(TexSampler)).Some?
  {
    if DeviceRun(r, p).status.Done? {
      assert r.status.Done? && FirstSuccess(p.createDevice, DriverOrder).Some?;
      DeviceCore(r, p);
      var r0 := r.(handles := Acquired(Acquired(Acquired(r.handles, Member(SwapChain)), Member(Device)), Member(Context)));
      var r1 := Create(r0, p, Temp(BackBufferTex));
      var r2 := Create(r1, p, Member(BBufferTarget));
      CreateEffect(r1, p, Member(BBufferTarget));
      var r3 := Release(r2, Temp(BackBufferTex));
      StepsStatus(r3, p, DeviceSteps);
      DeviceStepsSlots();
      StepsLive(r3, p, DeviceSteps);
      StepsKeepHeld(r3, p, DeviceSteps, Member(BBufferTarget));
    }
  }

  /** init keeps the invariant, leaves no local live and touches only
      device and shader slots. */
  lemma InitKeeps(r: Run, p: Platform)
    requires Valid(r.handles) && LocalsNull(r.handles)
    ensures var r' := InitRun(r, p);
      Valid(r'.handles) && LocalsNull(r'.handles) && Grows(r.handles, r'.handles, DeviceSlots + ShaderSlots)
  {
    var r1 := DeviceRun(r, p);
    var r2 := InitRun(r, p);
    var t := DeviceSlots + ShaderSlots;
    DeviceKeeps(r, p);
    DeviceLocals(r, p);
    ShaderSlotsAre();
    GrowsWiden(r.handles, r1.handles, DeviceSlots, t);
    StagesKeeps(r.handles, r1, p, ShaderStages, t);
    StagesFrame(r1, p, ShaderStages);
  }

  /** init succeeds exactly when some driver type yields a device and every
      later call of deviceSetup and shaderSetup succeeds. */
  lemma InitStatus(r: Run, p: Platform)
    requires r.status.Done?
    ensures InitRun(r, p).status.Done? <==>
      && FirstSuccess(p.createDevice, DriverOrder).Some?
      && Outcome(DeviceResults(p)).Done? && Outcome(ShaderResults(p)).Done?
  {
    DeviceStatus(r, p);
    StagesStatus(DeviceRun(r, p), p, ShaderStages);
  }

  /** shaderSetup leaves every pointer of a successful deviceSetup live. */
  lemma InitKeepsDevice(r: Run, p: Platform)
    requires LocalsNull(r.handles) && InitRun(r, p).status.Done?
    ensures var h := InitRun(r, p).handles;
      && Held(h, Member(SwapChain)).Some? && Held(h, Member(Device)).Some? && Held(h, Member(Context)).Some?
      && Held(h, Member(BBufferTarget)).Some? && Held(h, Member(BlendState)).Some?
      && Held(h, Member(DepthTex)).Some? && Held(h, Member(DepthTexView)).Some? && Held(h, Member(TexSampler)).Some?
  {
    var r1 := DeviceRun(r, p);
    StagesStatus(r1, p, ShaderStages);
    DeviceLocals(r, p);
    DeviceLive(r, p);
    StagesKeepHeld(r1, p, ShaderStages, Member(SwapChain));
    StagesKeepHeld(r1, p, ShaderStages, Member(Device));
    StagesKeepHeld(r1, p, ShaderStages, Member(Context));
    StagesKeepHeld(r1, p, ShaderStages, Member(BBufferTarget));
    StagesKeepHeld(r1, p, ShaderStages, Member(BlendState));
    StagesKeepHeld(r1, p, ShaderStages, Member(DepthTex));
    StagesKeepHeld(r1, p, ShaderStages, Member(DepthTexView));
    StagesKeepHeld(r1, p, ShaderStages, Member(TexSampler));
  }

  /** After a successful init every pointer deviceSetup and shaderSetup
      set is live. */
  lemma InitLive(r: Run, p: Platform)
    requires LocalsNull(r.handles)
    ensures var r' := InitRun(r, p);
      r'.status.Done? ==> forall f | Member(f) in DeviceSlots + ShaderSlots :: Held(r'.handles, Member(f)).Some?
  {
    var r1 := DeviceRun(r, p);
    var r2 := InitRun(r, p);
    if r2.status.Done? {
      InitKeepsDevice(r, p);
      DeviceLocals(r, p);
      ShaderSlotsAre();
      StagesLive(r1, p, ShaderStages);
      forall f | Member(f) in DeviceSlots + ShaderSlots ensures Held(r2.handles, Member(f)).Some? {
        if Member(f) !in ShaderSlots {
          assert f in {Device, Context, SwapChain, BBufferTarget, BlendState, DepthTex, DepthTexView, TexSampler};
        }
      }
    }
  }

  /** The steps of populateVRAM, whatever their descriptors. */
  function PopulateShape(d: seq<BufferDesc>): (s: seq<Step>)
    requires |d| == 7
    ensures |s| == 10
  {
    [ Buffer(SpriteVertBuf, d[0]), Buffer(SpriteInstBuf, d[1]), Buffer(FontVertBuf, d[2]),
      Buffer(ProjBuf, d[3]), Object(WoodTexView), Object(FontTexView), Object(HeartTexView),
      Buffer(CubeModelBuf, d[4]), Buffer(CubeVertBuf, d[5]), Buffer(CubeIdxBuf, d[6]) ]
  }

  /** The pointers of steps shaped like populateVRAM's. */
  lemma PopulateShapeSlots(d: seq<BufferDesc>)
    requires |d| == 7
    ensures StepsSlots(PopulateShape(d)) == PopulateSlots
  {
    var s := PopulateShape(d);
    assert Member(s[0].f) in StepsSlots(s) && Member(s[1].f) in StepsSlots(s) && Member(s[2].f) in StepsSlots(s);
    assert Member(s[3].f) in StepsSlots(s) && Member(s[4].f) in StepsSlots(s) && Member(s[5].f) in StepsSlots(s);
    assert Member(s[6].f) in StepsSlots(s) && Member(s[7].f) in StepsSlots(s) && Member(s[8].f) in StepsSlots(s);
    assert Member(s[9].f) in StepsSlots(s);
  }

  /** Steps shaped like populateVRAM's create no pointer twice. */
  lemma PopulateShapeDistinct(d: seq<BufferDesc>)
    requires |d| == 7
    ensures DistinctFields(PopulateShape(d))
  {
  }

  /** deviceSetup's last steps, one at a time. */
  lemma DeviceStepsCons()
    ensures DeviceSteps == [Object(BlendState)] + ([Object(DepthTex)] + ([Object(DepthTexView)] + [Object(TexSampler)]))
  {
  }

  /** populateVRAM's steps, one at a time. */
  lemma PopulateStepsCons(viewHeight: real, reserveSprites: nat, reserveLetters: nat)
    requires reserveSprites < 0x1_0000_0000 && reserveLetters < 0x1_0000_0000
    ensures PopulateSteps(viewHeight, reserveSprites, reserveLetters) ==
      [Buffer(SpriteVertBuf, SpriteVertDesc(viewHeight))] + ([Buffer(SpriteInstBuf, InstanceDesc(reserveSprites))] +
      ([Buffer(FontVertBuf, FontDesc(reserveLetters))] + ([Buffer(ProjBuf, ProjDesc)] +
      ([Object(WoodTexView)] + ([Object(FontTexView)] + ([Object(HeartTexView)] +
      ([Buffer(CubeModelBuf, CubeModelDesc)] + ([Buffer(CubeVertBuf, CubeVertDesc)] + [Buffer(CubeIdxBuf, CubeIdxDesc)]))))))))
  {
  }

  /** The pointers populateVRAM creates. */
  lemma PopulateStepsSlots(viewHeight: real, reserveSprites: nat, reserveLetters: nat)
    requires reserveSprites < 0x1_0000_0000 && reserveLetters < 0x1_0000_0000
    ensures StepsSlots(PopulateSteps(viewHeight, reserveSprites, reserveLetters)) == PopulateSlots
  {
    PopulateShapeSlots([SpriteVertDesc(viewHeight), InstanceDesc(reserveSprites), FontDesc(reserveLetters), ProjDesc,
      CubeModelDesc, CubeVertDesc, CubeIdxDesc]);
  }

  /** populateVRAM creates no pointer twice. */
  lemma PopulateStepsDistinct(viewHeight: real, reserveSprites: nat, reserveLetters: nat)
    requires reserveSprites < 0x1_0000_0000 && reserveLetters < 0x1_0000_0000
    ensures DistinctFields(PopulateSteps(viewHeight, reserveSprites, reserveLetters))
  {
    PopulateShapeDistinct([SpriteVertDesc(viewHeight), InstanceDesc(reserveSprites), FontDesc(reserveLetters), ProjDesc,
      CubeModelDesc, CubeVertDesc, CubeIdxDesc]);
  }

  /** populateVRAM keeps the invariant and touches only its ten pointers. */
  lemma PopulateKeeps(r: Run, p: Platform, viewHeight: real, reserveSprites: nat, reserveLetters: nat)
    requires reserveSprites < 0x1_0000_0000 && reserveLetters < 0x1_0000_0000
    requires Valid(r.handles)
    ensures var r' := PopulateRun(r, p, viewHeight, reserveSprites, reserveLetters);
      Valid(r'.handles) && Grows(r.handles, r'.handles, PopulateSlots)
  {
    PopulateStepsSlots(viewHeight, reserveSprites, reserveLetters);
    GrowsRefl(r.handles, PopulateSlots);
    StepsKeeps(r.handles, r, p, PopulateSteps(viewHeight, reserveSprites, reserveLetters), PopulateSlots);
  }

  /** populateVRAM: its status is the first failing creation, in source
      order; it shouts nothing; after a throw nothing runs. */
  lemma PopulateStatus(r: Run, p: Platform, viewHeight: real, reserveSprites: nat, reserveLetters: nat)
    requires reserveSprites < 0x1_0000_0000 && reserveLetters < 0x1_0000_0000
    ensures var r' := PopulateRun(r, p, viewHeight, reserveSprites, reserveLetters);
      && r'.shouts == r.shouts
      && (r.status.Failed? ==> r' == r)
      && (r.status.Done? ==> r'.status == Outcome(StepsResults(p, PopulateSteps(viewHeight, reserveSprites, reserveLetters))))
  {
    StepsStatus(r, p, PopulateSteps(viewHeight, reserveSprites, reserveLetters));
  }

  /** populateVRAM leaves the locals and every pointer but its own alone,
      and after a successful run all ten of its pointers are live. */
  lemma PopulateLive(r: Run, p: Platform, viewHeight: real, reserveSprites: nat, reserveLetters: nat)
    requires reserveSprites < 0x1_0000_0000 && reserveLetters < 0x1_0000_0000
    ensures var r' := PopulateRun(r, p, viewHeight, reserveSprites, reserveLetters);
      && (LocalsNull(r.handles) ==> LocalsNull(r'.handles))
      && (forall x | x !in PopulateSlots :: Held(r'.handles, x) == Held(r.handles, x))
      && (r'.status.Done? ==> forall x | x in PopulateSlots :: Held(r'.handles, x).Some?)
  {
    PopulateStepsSlots(viewHeight, reserveSprites, reserveLetters);
    StepsFrame(r, p, PopulateSteps(viewHeight, reserveSprites, reserveLetters));
    StepsLive(r, p, PopulateSteps(viewHeight, reserveSprites, reserveLetters));
    if LocalsNull(r.handles) {
      StepsLocals(r, p, PopulateSteps(viewHeight, reserveSprites, reserveLetters));
    }
  }

  /** populateVRAM changes no buffer descriptor but its own. */
  lemma PopulateBuffersFrame(r: Run, p: Platform, viewHeight: real, reserveSprites: nat, reserveLetters: nat)
    requires reserveSprites < 0x1_0000_0000 && reserveLetters < 0x1_0000_0000
    ensures var r' := PopulateRun(r, p, viewHeight, reserveSprites, reserveLetters);
      forall f | Member(f) !in PopulateSlots ::
        (f in r'.buffers <==> f in r.buffers) && (f in r.buffers ==> r'.buffers[f] == r.buffers[f])
  {
    PopulateStepsSlots(viewHeight, reserveSprites, reserveLetters);
    StepsFrame(r, p, PopulateSteps(viewHeight, reserveSprites, reserveLetters));
  }

  /** After a successful populateVRAM each of its seven buffers has the
      descriptor it was created with. */
  lemma PopulateBuffers(r: Run, p: Platform, viewHeight: real, reserveSprites: nat, reserveLetters: nat)
    requires reserveSprites < 0x1_0000_0000 && reserveLetters < 0x1_0000_0000
    ensures var r' := PopulateRun(r, p, viewHeight, reserveSprites, reserveLetters);
      r'.status.Done? ==>
        && r'.buffers.Keys >= {SpriteVertBuf, SpriteInstBuf, FontVertBuf, ProjBuf, CubeModelBuf, CubeVertBuf, CubeIdxBuf}
        && r'.buffers[SpriteVertBuf] == SpriteVertDesc(viewHeight)
        && r'.buffers[SpriteInstBuf] == InstanceDesc(reserveSprites)
        && r'.buffers[FontVertBuf] == FontDesc(reserveLetters)
        && r'.buffers[ProjBuf] == ProjDesc
        && r'.buffers[CubeModelBuf] == CubeModelDesc
        && r'.buffers[CubeVertBuf] == CubeVertDesc
        && r'.buffers[CubeIdxBuf] == CubeIdxDesc
  {
    var s := PopulateSteps(viewHeight, reserveSprites, reserveLetters);
    PopulateStepsDistinct(viewHeight, reserveSprites, reserveLetters);
    StepsBuffers(r, p, s);
    assert s[0].Buffer? && s[1].Buffer? && s[2].Buffer? && s[3].Buffer?;
    assert s[7].Buffer? && s[8].Buffer? && s[9].Buffer?;
  }
}
