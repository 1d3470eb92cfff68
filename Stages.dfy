/** The stage registry of constants.tsx and the two re-maps App.tsx applies to a stage list:
    the reset of every status to PENDING (when a session is reset or an audit starts) and the
    status update of the stages with one id (the `updateStageStatus` callback). */
module Stages {
  import opened Types

  /** The statuses `updateStageStatus` accepts: RUNNING, COMPLETED or ERROR. */
  type ActiveStatus = s: StageStatus | s != Pending witness Running

  /** The layer at position `i` of INITIAL_PIPELINE_STAGES: its id and label, not started. */
  function RegistryEntry(i: nat): (st: PipelineStage)
    requires i < 8
    ensures st.status == Pending && st.progress == 0.0
  {
    if i == 0 then PipelineStage("secret_ml", "Secret Prediction (XGBoost)", Pending, 0.0)
    else if i == 1 then PipelineStage("sast_risk", "Contextual SAST (Ensemble)", Pending, 0.0)
    else if i == 2 then PipelineStage("attack_gnn", "Attack Path GNN", Pending, 0.0)
    else if i == 3 then PipelineStage("dast_sim", "DAST Runtime Likelihood", Pending, 0.0)
    else if i == 4 then PipelineStage("sec_memory", "Security Memory Graph", Pending, 0.0)
    else if i == 5 then PipelineStage("verdict_ai", "Decision Intelligence", Pending, 0.0)
    else if i == 6 then PipelineStage("xai_layer", "XAI Attribution (SHAP)", Pending, 0.0)
    else PipelineStage("self_heal", "Patch Synthesis", Pending, 0.0)
  }

  /** INITIAL_PIPELINE_STAGES: the eight layers in execution order. */
  function InitialPipelineStages(): (stages: seq<PipelineStage>)
    ensures |stages| == 8
  {
    seq(8, i requires 0 <= i < 8 => RegistryEntry(i))
  }

  /** The registry holds eight layers from `secret_ml` to `self_heal`, none started, no two
      with the same id: each id determines its own position. */
  lemma RegistryWellFormed()
    ensures |InitialPipelineStages()| == 8
    ensures InitialPipelineStages()[0].id == "secret_ml" && InitialPipelineStages()[7].id == "self_heal"
    ensures forall i :: 0 <= i < 8 ==> InitialPipelineStages()[i].status == Pending && InitialPipelineStages()[i].progress == 0.0
    ensures Distinct(StageIds(InitialPipelineStages()))
  {
    var r := InitialPipelineStages();
    var ids := StageIds(r);
    forall i, j | 0 <= i < j < 8 ensures ids[i] != ids[j] {
      assert ids[i] == RegistryEntry(i).id && ids[j] == RegistryEntry(j).id;
      RegistryPositionOfEntry(i);
      RegistryPositionOfEntry(j);
    }
  }

  /** The ids of a stage list, in order. */
  function StageIds(stages: seq<PipelineStage>): (ids: seq<string>)
    ensures |ids| == |stages|
    ensures forall i :: 0 <= i < |stages| ==> ids[i] == stages[i].id
  {
    if stages == [] then [] else [stages[0].id] + StageIds(stages[1..])
  }

  /** Recovers the registry position of a registry id from its first and fourth characters
      (and 8 for ids too short to be one). */
  function RegistryPosition(id: string): nat {
    if |id| < 4 then 8
    else if id[0] == 'a' then 2 else if id[0] == 'd' then 3
    else if id[0] == 'v' then 5 else if id[0] == 'x' then 6
    else if id[3] == 'r' then 0 else if id[3] == 't' then 1
    else if id[3] == '_' then 4 else 7
  }

  lemma RegistryPositionOfEntry(i: nat)
    requires i < 8
    ensures RegistryPosition(RegistryEntry(i).id) == i
  {
    if i == 0 {
    } else if i == 1 {
    } else if i == 2 {
    } else if i == 3 {
    } else if i == 4 {
    } else if i == 5 {
    } else if i == 6 {
    } else {
    }
  }

  /** Two stage lists with the same length whose stages agree, position by position, on
      everything but the status. */
  predicate SameShape(a: seq<PipelineStage>, b: seq<PipelineStage>) {
    |a| == |b| &&
    forall i :: 0 <= i < |a| ==> a[i].id == b[i].id && a[i].caption == b[i].caption && a[i].progress == b[i].progress
  }

  /** `stages.map(s => ({ ...s, status: 'PENDING' }))`: every stage kept in place, with its
      status set back to PENDING. */
  function ResetStatuses(stages: seq<PipelineStage>): (r: seq<PipelineStage>)
    ensures SameShape(r, stages)
    ensures forall i :: 0 <= i < |r| ==> r[i].status == Pending
  {
    seq(|stages|, i requires 0 <= i < |stages| => stages[i].(status := Pending))
  }

  /** Re-mapping the registry gives back the registry, since it is all PENDING already. */
  lemma ResetRegistryIsRegistry()
    ensures ResetStatuses(InitialPipelineStages()) == InitialPipelineStages()
  {
    var r, reg := ResetStatuses(InitialPipelineStages()), InitialPipelineStages();
    forall i | 0 <= i < |reg| ensures r[i] == reg[i] {
      assert r[i].status == reg[i].status;
    }
  }

  /** `prev.map(s => (s.id === id ? { ...s, status } : s))`: the stages whose id is `id` get
      `status`; every other stage, and the order and the length, stay as they were. */
  function UpdateStage(stages: seq<PipelineStage>, id: string, status: ActiveStatus): (r: seq<PipelineStage>)
    ensures SameShape(r, stages)
    ensures forall i :: 0 <= i < |r| && stages[i].id == id ==> r[i].status == status
    ensures forall i :: 0 <= i < |r| && stages[i].id != id ==> r[i] == stages[i]
  {
    if stages == [] then []
    else [if stages[0].id == id then stages[0].(status := status) else stages[0]] + UpdateStage(stages[1..], id, status)
  }

  /** An id that no stage carries leaves the list unchanged. */
  lemma UpdateAbsentIdIsNoop(stages: seq<PipelineStage>, id: string, status: ActiveStatus)
    requires id !in StageIds(stages)
    ensures UpdateStage(stages, id, status) == stages
  {
    var r := UpdateStage(stages, id, status);
    forall i | 0 <= i < |stages| ensures r[i] == stages[i] {
      assert StageIds(stages)[i] == stages[i].id;
    }
  }

  /** Updating the same id twice to the same status is the same as doing it once. */
  lemma UpdateStageIdempotent(stages: seq<PipelineStage>, id: string, status: ActiveStatus)
    ensures UpdateStage(UpdateStage(stages, id, status), id, status) == UpdateStage(stages, id, status)
  {
    var once := UpdateStage(stages, id, status);
    var twice := UpdateStage(once, id, status);
    forall i | 0 <= i < |stages| ensures twice[i] == once[i] {
      if stages[i].id == id {
        assert once[i] == stages[i].(status := status);
      }
    }
  }

  /** A re-map never changes the ids: with ids kept in order, the registry's distinct ids stay
      distinct after any number of updates. */
  lemma SameShapeKeepsIds(a: seq<PipelineStage>, b: seq<PipelineStage>)
    requires SameShape(a, b)
    ensures StageIds(a) == StageIds(b)
  {
    assert forall i :: 0 <= i < |a| ==> StageIds(a)[i] == StageIds(b)[i];
  }

  lemma SameShapeReflexive(a: seq<PipelineStage>)
    ensures SameShape(a, a)
  {
  }

  lemma SameShapeTransitive(a: seq<PipelineStage>, b: seq<PipelineStage>, c: seq<PipelineStage>)
    requires SameShape(a, b) && SameShape(b, c)
    ensures SameShape(a, c)
  {
  }
}
