/**
 * The stage table `PIPELINE_STAGES` and `getStageForRole`. Their definitions
 * are not part of this model's sources (they are imported from
 * src/lib/workflow/types.ts but not defined there), so the table is a
 * parameter: stage i is `table[i]`, its `index` is its position, and a
 * table is usable when every role sits in exactly one stage.
 */
module Stages {
  import opened Types

  type StageTable = seq<seq<AgentRole>>

  /** Some stage of the table holds r. */
  predicate Scheduled(table: StageTable, r: AgentRole)
  {
    exists i :: 0 <= i < |table| && r in table[i]
  }

  /** Every stage non-empty, every role scheduled, no role twice. */
  predicate ValidStages(table: StageTable)
  {
    && (forall i :: 0 <= i < |table| ==> |table[i]| > 0)
    && (forall r: AgentRole :: Scheduled(table, r))
    && (forall i, j, r :: 0 <= i < j < |table| && r in table[i] ==> r !in table[j])
    && (forall i, a, b :: 0 <= i < |table| && 0 <= a < b < |table[i]| ==> table[i][a] != table[i][b])
  }

  /** The table the pipeline description implies: PM; then RD and UI in parallel; then TEST and SEC in parallel. */
  const DescribedStages: StageTable := [[Pm], [Rd, Ui], [Test, Sec]]

  lemma DescribedStagesValid()
    ensures ValidStages(DescribedStages)
  {
    forall r: AgentRole ensures Scheduled(DescribedStages, r) {
      match r
      case Pm => assert r in DescribedStages[0];
      case Rd => assert r in DescribedStages[1];
      case Ui => assert r in DescribedStages[1];
      case Test => assert r in DescribedStages[2];
      case Sec => assert r in DescribedStages[2];
    }
  }

  /** The first stage from `from` on that holds r. */
  function FindStage(table: StageTable, r: AgentRole, from: nat): (i: nat)
    requires from <= |table|
    requires exists k :: from <= k < |table| && r in table[k]
    ensures from <= i < |table| && r in table[i]
    ensures forall k :: from <= k < i ==> r !in table[k]
    decreases |table| - from
  {
    if r in table[from] then from else FindStage(table, r, from + 1)
  }

  /** `getStageForRole(r).index`: the one stage that holds r. */
  function StageOf(table: StageTable, r: AgentRole): (i: nat)
    requires ValidStages(table)
    ensures i < |table| && r in table[i]
    ensures forall k :: 0 <= k < |table| && r in table[k] ==> k == i
  {
    assert Scheduled(table, r);
    var i := FindStage(table, r, 0);
    assert forall k :: i < k < |table| ==> r !in table[k];
    i
  }

  /** The roles of stages `lo` up to (not including) `hi`, in stage order. */
  function RolesOf(table: StageTable, lo: nat, hi: nat): (rs: seq<AgentRole>)
    requires lo <= hi <= |table|
    ensures forall r :: r in rs <==> exists k :: lo <= k < hi && r in table[k]
    decreases hi - lo
  {
    if lo == hi then []
    else
      var rest := RolesOf(table, lo + 1, hi);
      assert forall r :: r in rest ==> exists k :: lo <= k < hi && r in table[k];
      table[lo] + rest
  }

  /** Roles run in a strictly earlier stage are exactly those whose stage index is smaller. */
  lemma RolesBeforeStage(table: StageTable, r: AgentRole, q: AgentRole)
    requires ValidStages(table)
    ensures q in RolesOf(table, 0, StageOf(table, r)) <==> StageOf(table, q) < StageOf(table, r)
  {
  }

  /** Roles run in a strictly later stage are exactly those whose stage index is larger. */
  lemma RolesAfterStage(table: StageTable, r: AgentRole, q: AgentRole)
    requires ValidStages(table)
    ensures q in RolesOf(table, StageOf(table, r) + 1, |table|) <==> StageOf(table, q) > StageOf(table, r)
  {
  }
}
