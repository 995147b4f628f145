/** The snapshot of ready roles stays accurate while a pass works through it. */
module FabricReady {
  import opened Wrappers
  import opened Core
  import opened Sequences
  import opened RoleGraph
  import opened FusionRewrite
  import opened Sharding
  import opened ReductionPlanning
  import opened Admission
  import opened ReadySelection
  import opened FabricModel
  import opened FabricInvariant
  import opened FabricSteps
  import opened FabricRuns
  import opened Progress

  datatype ReadyRole = ReadyRole(role: RoleSpec, inputs: seq<ObjectId>, chain: seq<RoleSpec>)

  /** The maximal fusion chain from the role on, all of it still waiting. */
  ghost predicate ChainStillWaiting(job: JobRecord, waiting: set<string>, item: ReadyRole)
  {
    && IsFusionChain(job.definition, waiting, item.chain) && item.chain[0] == item.role
    && (if item.role.Chainable() then NextInChain(job.definition, waiting, item.chain[|item.chain| - 1]).None? else |item.chain| == 1)
    && forall i :: 1 <= i < |item.chain| ==> item.chain[i].name in job.roles && job.roles[item.chain[i].name].Waiting?
  }

  /** The snapshot entry is still what one would take now. */
  ghost predicate StillReady(job: JobRecord, waiting: set<string>, item: ReadyRole)
  {
    && FindRole(job.definition.roles, item.role.name) == Some(item.role)
    && Materializable(job, item.role) && DependencyOutputs(job.roles, item.role.dependsOn) == Some(item.inputs)
    && (item.role.Logical? ==> ChainStillWaiting(job, waiting, item))
  }

  lemma {:induction false} DependencyIsDone(roles: RoleStates, dependencies: seq<string>, d: string)
    requires DependencyOutputs(roles, dependencies).Some? && d in dependencies
    ensures d in roles && roles[d].Done?
  {
    var n := |dependencies| - 1;
    if d != dependencies[n] {
      var i :| 0 <= i < |dependencies| && dependencies[i] == d;
      assert dependencies[..n][i] == d;
      DependencyIsDone(roles, dependencies[..n], d);
    }
  }

  lemma ChainLink(job: JobRecord, waiting: set<string>, item: ReadyRole, i: nat)
    requires UniqueNames(job.definition.roles) && StillReady(job, waiting, item) && item.role.Logical? && i < |item.chain|
    ensures item.chain[i].name in job.roles && !job.roles[item.chain[i].name].Done?
    ensures FindRole(job.definition.roles, item.chain[i].name) == Some(item.chain[i])
    ensures i > 0 ==> item.chain[i].dependsOn == [item.chain[i - 1].name]
  {
    hide NextInChain, DependencyOutputs;
    ChainEdgesArePrivate(job.definition, waiting, item.chain);
    if i > 0 {
      assert NextInChain(job.definition, waiting, item.chain[i - 1]) == Some(item.chain[i]);
    }
  }

  /** Walking two chains back along their only dependencies never leads to the same role. */
  lemma {:induction false} ChainsDisjoint(job: JobRecord, waiting: set<string>, a: ReadyRole, b: ReadyRole, i: nat, j: nat)
    requires UniqueNames(job.definition.roles) && a.role.Logical? && b.role.Logical?
    requires StillReady(job, waiting, a) && StillReady(job, waiting, b) && a.role.name != b.role.name
    requires i < |a.chain| && j < |b.chain|
    ensures a.chain[i].name != b.chain[j].name
    decreases i
  {
    hide NextInChain, DependencyOutputs, IsFusionChain;
    ChainLink(job, waiting, a, i);
    ChainLink(job, waiting, b, j);
    if i > 0 { ChainLink(job, waiting, a, i - 1); }
    if j > 0 { ChainLink(job, waiting, b, j - 1); }
    if a.chain[i].name == b.chain[j].name {
      if i == 0 && j > 0 {
        DependencyIsDone(job.roles, a.role.dependsOn, b.chain[j - 1].name);
      } else if j == 0 && i > 0 {
        DependencyIsDone(job.roles, b.role.dependsOn, a.chain[i - 1].name);
      } else if i > 0 && j > 0 {
        assert a.chain[i].dependsOn[0] == b.chain[j].dependsOn[0];
        ChainsDisjoint(job, waiting, a, b, i - 1, j - 1);
      }
    }
  }

  /** A chain member waits for an unfinished role, so it is not itself ready. */
  lemma MemberIsNotReady(job: JobRecord, waiting: set<string>, a: ReadyRole, i: nat, b: ReadyRole)
    requires UniqueNames(job.definition.roles) && a.role.Logical? && 1 <= i < |a.chain|
    requires StillReady(job, waiting, a) && StillReady(job, waiting, b)
    ensures a.chain[i].name != b.role.name
  {
    hide NextInChain, DependencyOutputs, IsFusionChain;
    ChainLink(job, waiting, a, i);
    ChainLink(job, waiting, a, i - 1);
    if a.chain[i].name == b.role.name {
      assert b.role.dependsOn[0] == a.chain[i - 1].name;
      DependencyIsDone(job.roles, b.role.dependsOn, a.chain[i - 1].name);
    }
  }

  /** The roles a step for this entry may touch: the role, and for a fused step the chain behind it. */
  ghost predicate TouchesOnly(job: JobRecord, job': JobRecord, item: ReadyRole)
  {
    && JobKept(job, job')
    && forall r :: r in job.roles && r != item.role.name
                   && (item.role.Logical? ==> forall i :: 0 <= i < |item.chain| ==> item.chain[i].name != r) ==>
         job'.roles[r] == job.roles[r]
  }

  lemma StaysReady(job: JobRecord, job': JobRecord, waiting: set<string>, done: ReadyRole, item: ReadyRole)
    requires UniqueNames(job.definition.roles) && StillReady(job, waiting, done) && StillReady(job, waiting, item)
    requires done.role.name != item.role.name && TouchesOnly(job, job', done)
    ensures StillReady(job', waiting, item)
  {
    hide NextInChain, IsFusionChain, FindRole;
    DependenciesKept(job, job', item.role.dependsOn);
    if done.role.Logical? {
      forall i | 0 <= i < |done.chain| ensures done.chain[i].name != item.role.name {
        if i > 0 { MemberIsNotReady(job, waiting, done, i, item); }
      }
    }
    if item.role.Logical? {
      forall j | 1 <= j < |item.chain| ensures job'.roles[item.chain[j].name] == job.roles[item.chain[j].name] {
        MemberIsNotReady(job, waiting, item, j, done);
        if done.role.Logical? {
          forall i | 0 <= i < |done.chain| ensures done.chain[i].name != item.chain[j].name {
            ChainsDisjoint(job, waiting, done, item, i, j);
          }
        }
      }
    }
  }

  // ----- what a materialising step touches -----

  lemma MaterializeKeepsJob(s: State, s': State, id: JobId, name: string, choice: RoleChoice)
    requires Inv(s) && MaterializeStep(s, s', id, name, choice)
    ensures id in s.jobs && id in s'.jobs && JobKept(s.jobs[id], s'.jobs[id])
    ensures forall r :: r in s.jobs[id].roles && r != name && (choice.Fused? ==> r !in Members(choice.chain)) ==>
              s'.jobs[id].roles[r] == s.jobs[id].roles[r]
  {
    hide Inv, MaterializeStep, TasksAdded, ReadyInputs, ShardsAllowed, FusedShape;
    StepIsIdle(s, s', id, name, choice);
    match choice {
      case Infeasible => InfeasibleShape(s, s', id, name);
      case Direct(task, template) => DirectShape(s, s', id, name, task, template);
      case Fused(_, _, _, _) =>
        FusedStepShape(s, s', id, name, choice);
        if s' != s { FusedKeepsJob(s, s', id, name, choice); }
      case Shards(specs) => ShardsShape(s, s', id, name, specs);
    }
  }

  lemma FusedKeepsJob(s: State, s': State, id: JobId, name: string, choice: RoleChoice)
    requires FusedShape(s, s', id, name, choice)
    ensures choice.Fused? && id in s.jobs && id in s'.jobs && JobKept(s.jobs[id], s'.jobs[id])
    ensures forall r :: r in s.jobs[id].roles && r !in Members(choice.chain) ==> s'.jobs[id].roles[r] == s.jobs[id].roles[r]
  {
    ChainIsIdle(s, s', id, name, choice);
    ChainLeavesOthers(s, s', id, name, choice);
    hide ChainAllowed, FusedSpec;
    forall r | r in s.jobs[id].roles && r !in Members(choice.chain) ensures s'.jobs[id].roles[r] == s.jobs[id].roles[r] {
      assert StatusKept(s.jobs[id], s'.jobs[id], r);
    }
  }

  /** The chain a fused choice names is a prefix of the entry's chain. */
  ghost predicate ChoiceFrom(item: ReadyRole, choice: RoleChoice)
  {
    choice.Fused? ==> item.role.Logical? && exists k :: 0 <= k <= |item.chain| && choice.chain == NamesOf(item.chain[..k])
  }

  lemma StepTouchesOnly(s: State, s': State, id: JobId, item: ReadyRole, choice: RoleChoice)
    requires Inv(s) && MaterializeStep(s, s', id, item.role.name, choice) && ChoiceFrom(item, choice)
    ensures id in s.jobs && id in s'.jobs && TouchesOnly(s.jobs[id], s'.jobs[id], item)
  {
    hide Inv, MaterializeStep;
    MaterializeKeepsJob(s, s', id, item.role.name, choice);
    if choice.Fused? {
      var k :| 0 <= k <= |item.chain| && choice.chain == NamesOf(item.chain[..k]);
      forall r | r in Members(choice.chain) ensures exists i :: 0 <= i < |item.chain| && item.chain[i].name == r {
        var i :| 0 <= i < |choice.chain| && choice.chain[i] == r;
        assert item.chain[i].name == r;
      }
    }
  }

  // ----- a finished pass -----

  /** Every waiting role whose dependencies are completed is among the entries from `from` on. */
  ghost predicate Awaiting(job: JobRecord, ready: seq<ReadyRole>, from: nat)
    requires from <= |ready|
  {
    forall name :: (name in job.roles && job.roles[name].Waiting? && HasRole(job.definition.roles, name)
                    && DependencyOutputs(job.roles, Role(job.definition.roles, name).dependsOn).Some?) ==>
      exists j :: from <= j < |ready| && ready[j].role.name == name
  }

  lemma AwaitingStep(s: State, s': State, id: JobId, ready: seq<ReadyRole>, from: nat, choice: RoleChoice)
    requires Inv(s) && from < |ready| && MaterializeStep(s, s', id, ready[from].role.name, choice)
    requires id in s.jobs && Awaiting(s.jobs[id], ready, from) && (choice.Fused? ==> s' != s)
    ensures id in s'.jobs && Awaiting(s'.jobs[id], ready, from + 1)
  {
    hide Inv, MaterializeStep;
    MaterializeCompletesNothing(s, s', id, ready[from].role.name, choice);
    var job, job' := s.jobs[id], s'.jobs[id];
    forall name | name in job'.roles && job'.roles[name].Waiting? && HasRole(job'.definition.roles, name)
                  && DependencyOutputs(job'.roles, Role(job'.definition.roles, name).dependsOn).Some?
      ensures exists j :: from + 1 <= j < |ready| && ready[j].role.name == name
    {
      var dependencies := Role(job.definition.roles, name).dependsOn;
      if DependencyOutputs(job.roles, dependencies).None? { NothingNewDone(job.roles, job'.roles, dependencies); }
      var j :| from <= j < |ready| && ready[j].role.name == name;
      assert j != from;
    }
  }

  lemma NothingAwaiting(job: JobRecord, ready: seq<ReadyRole>)
    requires Awaiting(job, ready, |ready|)
    ensures Unstuck(job)
  {
    hide DependencyOutputs;
  }
}
