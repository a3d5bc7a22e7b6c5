/**
 * The colonoscopy-preparation checklist (app/checklist.tsx).
 *
 * Three phases of tasks; the screen keeps a map from task id to "checked",
 * saved as a whole under one storage key on every change, and an in-memory
 * map from phase id to "expanded". Progress figures are derived from the
 * checked map.
 *
 * The storage is the class `Store`, with the serialised text of a value
 * abstracted to the map it encodes; the screen is the class
 * `ChecklistScreen`, whose methods replace its maps in place. The pure
 * functions below specify those methods and the derived counts.
 */
module Checklist {

  import opened Common

  /** The single key under which the checked map is saved (`STORAGE_KEY`). */
  const StorageKey: string := "colonoscopy_checklist"

  datatype Task = Task(id: string, text: string)

  datatype Phase = Phase(id: string, title: string, subtitle: string, color: string, tasks: seq<Task>)

  // The texts of the tasks, kept apart so that reasoning about ids does not
  // carry them.
  const D1Text: string := "Stop eating high-fiber foods (seeds, nuts, popcorn)"
  const D2Text: string := "Avoid red or purple foods and drinks"
  const D3Text: string := "Switch to a low-residue diet"
  const D4Text: string := "Increase clear liquid intake"
  const D5Text: string := "Day before: clear liquids only (broth, gelatin, clear juice)"
  const M1Text: string := "Discuss blood thinners with physician (stop if directed)"
  const M2Text: string := "Review iron supplement usage (stop if directed)"
  const M3Text: string := "Pick up prescribed bowel prep solution"
  const M4Text: string := "Begin bowel prep as directed (evening before)"
  const M5Text: string := "Complete second dose of bowel prep (morning of, if split-dose)"
  const P1Text: string := "Nothing to eat or drink (NPO) from midnight"
  const P2Text: string := "Take only approved medications with small sip of water"
  const P3Text: string := "Arrange transportation home (no driving after sedation)"
  const P4Text: string := "Wear comfortable, loose-fitting clothing"
  const P5Text: string := "Bring insurance card, ID, and signed consent forms"
  const P6Text: string := "Arrive at facility at scheduled time"

  // The static content (`PHASES`).
  const Dietary: Phase := Phase("dietary", "Dietary Preparation", "5-7 days before procedure", "#FF9500",
    [Task("d1", D1Text), Task("d2", D2Text), Task("d3", D3Text), Task("d4", D4Text), Task("d5", D5Text)])

  const Medication: Phase := Phase("medication", "Medication Review", "3-7 days before procedure", "#4A90D9",
    [Task("m1", M1Text), Task("m2", M2Text), Task("m3", M3Text), Task("m4", M4Text), Task("m5", M5Text)])

  const ProcedureDay: Phase := Phase("procedure", "Procedure Day", "Day of colonoscopy", "#2E9E9E",
    [Task("p1", P1Text), Task("p2", P2Text), Task("p3", P3Text), Task("p4", P4Text), Task("p5", P5Text), Task("p6", P6Text)])

  const Phases: seq<Phase> := [Dietary, Medication, ProcedureDay]

  // ---------------------------------------------------------------------
  // Checked tasks
  // ---------------------------------------------------------------------

  /** `!!checkedTasks[id]`: an absent key reads as unchecked. */
  predicate IsChecked(checked: map<string, bool>, id: string) {
    id in checked && checked[id]
  }

  /** The map `toggleTask` saves: the entry for `id` negated, absent read as false. */
  function Toggle(checked: map<string, bool>, id: string): (r: map<string, bool>)
    ensures id in r && IsChecked(r, id) == !IsChecked(checked, id)
    ensures r.Keys == checked.Keys + {id}
    ensures forall other :: other in checked && other != id ==> r[other] == checked[other]
  {
    checked[id := !IsChecked(checked, id)]
  }

  /**
   * Toggling twice restores every displayed value; an entry that was absent
   * is now present as false.
   */
  lemma ToggleTwice(checked: map<string, bool>, id: string)
    ensures forall x :: IsChecked(Toggle(Toggle(checked, id), id), x) == IsChecked(checked, x)
    ensures Toggle(Toggle(checked, id), id) == checked[id := IsChecked(checked, id)]
  {
  }

  /** The effect of toggling the given ids one after the other. */
  function ToggleAll(checked: map<string, bool>, ids: seq<string>): map<string, bool>
    decreases |ids|
  {
    if ids == [] then checked else ToggleAll(Toggle(checked, ids[0]), ids[1..])
  }

  /**
   * After any sequence of toggles, a task is checked exactly when it was
   * checked before or was toggled an odd number of times, but not both.
   */
  lemma {:induction false} ToggleParity(checked: map<string, bool>, ids: seq<string>, x: string)
    ensures IsChecked(ToggleAll(checked, ids), x) == (IsChecked(checked, x) != (multiset(ids)[x] % 2 == 1))
    decreases |ids|
  {
    if ids != [] {
      ToggleParity(Toggle(checked, ids[0]), ids[1..], x);
      assert ids == [ids[0]] + ids[1..];
      assert multiset(ids) == multiset{ids[0]} + multiset(ids[1..]);
    }
  }

  // ---------------------------------------------------------------------
  // Derived counts
  // ---------------------------------------------------------------------

  /** The ids of a task list, in order. */
  function TaskIds(tasks: seq<Task>): seq<string> {
    seq(|tasks|, i requires 0 <= i < |tasks| => tasks[i].id)
  }

  /** The number of the given ids whose entry is true. */
  function CountChecked(ids: seq<string>, checked: map<string, bool>): (n: nat)
    ensures n <= |ids|
    decreases |ids|
  {
    if ids == [] then 0
    else (if IsChecked(checked, ids[0]) then 1 else 0) + CountChecked(ids[1..], checked)
  }

  /** The count reaches the number of ids exactly when all are checked, and 0 exactly when none is. */
  lemma {:induction false} CountCheckedExtremes(ids: seq<string>, checked: map<string, bool>)
    ensures CountChecked(ids, checked) == |ids| <==> forall i :: 0 <= i < |ids| ==> IsChecked(checked, ids[i])
    ensures CountChecked(ids, checked) == 0 <==> forall i :: 0 <= i < |ids| ==> !IsChecked(checked, ids[i])
    decreases |ids|
  {
    if ids != [] {
      CountCheckedExtremes(ids[1..], checked);
      assert forall i :: 1 <= i < |ids| ==> ids[i] == ids[1..][i - 1];
    }
  }

  /** A phase's `completedCount`: how many of its tasks are checked. */
  function CompletedCount(phase: Phase, checked: map<string, bool>): (n: nat)
    ensures n <= |phase.tasks|
  {
    CountChecked(TaskIds(phase.tasks), checked)
  }

  /**
   * A phase is complete (`completedCount === totalCount`) exactly when all
   * its tasks are checked, and has count 0 exactly when none is.
   */
  lemma CompletedCountExtremes(phase: Phase, checked: map<string, bool>)
    ensures CompletedCount(phase, checked) == |phase.tasks| <==> forall t :: t in phase.tasks ==> IsChecked(checked, t.id)
    ensures CompletedCount(phase, checked) == 0 <==> forall t :: t in phase.tasks ==> !IsChecked(checked, t.id)
  {
    var ids := TaskIds(phase.tasks);
    CountCheckedExtremes(ids, checked);
    forall t | t in phase.tasks
      ensures exists i :: 0 <= i < |ids| && ids[i] == t.id
    {
      var k :| 0 <= k < |phase.tasks| && phase.tasks[k] == t;
      assert ids[k] == t.id;
    }
  }

  /** The ids of all tasks of the given phases, phase by phase. */
  function AllTaskIds(phases: seq<Phase>): seq<string>
    decreases |phases|
  {
    if phases == [] then [] else TaskIds(phases[0].tasks) + AllTaskIds(phases[1..])
  }

  /** `totalTasks`: the sum of the phases' task counts. */
  function TotalTasks(phases: seq<Phase>): (n: nat)
    ensures n == |AllTaskIds(phases)|
    decreases |phases|
  {
    if phases == [] then 0 else |phases[0].tasks| + TotalTasks(phases[1..])
  }

  /** The keys whose value is true. */
  function CheckedIds(checked: map<string, bool>): set<string> {
    set id | id in checked && checked[id]
  }

  /** `totalChecked`: every true value in the map, whether or not its key is a task id. */
  function TotalChecked(checked: map<string, bool>): (n: nat)
    ensures n <= |checked|
  {
    var ids := CheckedIds(checked);
    assert checked.Keys == ids + (checked.Keys - ids);
    |ids|
  }

  /** `totalChecked` is 0 exactly when no entry is true. */
  lemma TotalCheckedZeroIff(checked: map<string, bool>)
    ensures TotalChecked(checked) == 0 <==> forall id :: id in checked ==> !checked[id]
  {
    var ids := CheckedIds(checked);
    assert |ids| == 0 <==> ids == {};
    if ids != {} {
      var id :| id in ids;
      assert id in checked && checked[id];
    } else {
      forall id | id in checked ensures !checked[id] {
        assert checked[id] ==> id in ids;
      }
    }
  }

  /** `allComplete`. */
  predicate AllComplete(checked: map<string, bool>) {
    TotalChecked(checked) == TotalTasks(Phases)
  }

  const DietaryIds: seq<string> := ["d1", "d2", "d3", "d4", "d5"]
  const MedicationIds: seq<string> := ["m1", "m2", "m3", "m4", "m5"]
  const ProcedureIds: seq<string> := ["p1", "p2", "p3", "p4", "p5", "p6"]

  /** Every task id, phase by phase. */
  const TaskIdList: seq<string> := DietaryIds + MedicationIds + ProcedureIds

  /** Every id in `ids` is non-empty and starts with `c`. */
  predicate LedBy(ids: seq<string>, c: char) {
    forall id :: id in ids ==> |id| > 0 && id[0] == c
  }

  /** The ids of each phase's tasks. */
  lemma PhaseIds()
    ensures TaskIds(Dietary.tasks) == DietaryIds
    ensures TaskIds(Medication.tasks) == MedicationIds
    ensures TaskIds(ProcedureDay.tasks) == ProcedureIds
  {
  }

  // Within each phase the ids are different from each other and share a
  // leading letter.

  lemma DietaryIdsShape()
    ensures Distinct(DietaryIds) && LedBy(DietaryIds, 'd')
  {
  }

  lemma MedicationIdsShape()
    ensures Distinct(MedicationIds) && LedBy(MedicationIds, 'm')
  {
  }

  lemma ProcedureIdsShape()
    ensures Distinct(ProcedureIds) && LedBy(ProcedureIds, 'p')
  {
  }

  /** Three duplicate-free lists led by three different letters join without duplicates. */
  lemma DistinctJoin(a: seq<string>, b: seq<string>, c: seq<string>, ca: char, cb: char, cc: char)
    requires Distinct(a) && Distinct(b) && Distinct(c)
    requires LedBy(a, ca) && LedBy(b, cb) && LedBy(c, cc)
    requires ca != cb && ca != cc && cb != cc
    ensures Distinct(a + b + c)
  {
    var s := a + b + c;
    forall i, j | 0 <= i < j < |s| ensures s[i] != s[j] {
      if j < |a| {
        assert s[i] == a[i] && s[j] == a[j];
      } else if i >= |a| + |b| {
        assert s[i] == c[i - |a| - |b|] && s[j] == c[j - |a| - |b|];
      } else if i >= |a| && j < |a| + |b| {
        assert s[i] == b[i - |a|] && s[j] == b[j - |a|];
      } else {
        assert s[i] in a + b && s[j] in b + c;
        assert s[i] in a || s[i] in b;
        assert s[j] in b || s[j] in c;
        assert s[i] in a || s[j] in c;
      }
    }
  }

  lemma AllTaskIdsOfThree(p0: Phase, p1: Phase, p2: Phase)
    ensures AllTaskIds([p0, p1, p2]) == TaskIds(p0.tasks) + TaskIds(p1.tasks) + TaskIds(p2.tasks)
  {
    assert [p0, p1, p2][1..] == [p1, p2];
    assert [p1, p2][1..] == [p2];
    assert [p2][1..] == [];
    assert AllTaskIds([p2]) == TaskIds(p2.tasks) + [];
    assert TaskIds(p2.tasks) + [] == TaskIds(p2.tasks);
  }

  /** The phases list exactly the sixteen task ids. */
  lemma ContentIds()
    ensures AllTaskIds(Phases) == TaskIdList
    ensures TotalTasks(Phases) == |TaskIdList| == 16
  {
    PhaseIds();
    AllTaskIdsOfThree(Dietary, Medication, ProcedureDay);
  }

  /** No two tasks share an id. */
  lemma ContentIdsDistinct()
    ensures Distinct(TaskIdList)
  {
    DietaryIdsShape();
    MedicationIdsShape();
    ProcedureIdsShape();
    DistinctJoin(DietaryIds, MedicationIds, ProcedureIds, 'd', 'm', 'p');
  }

  /** The map holds entries for task ids only (what toggles and resets produce). */
  predicate TaskKeysOnly(checked: map<string, bool>) {
    forall id :: id in checked ==> id in TaskIdList
  }

  lemma {:induction false} CountCheckedAppend(a: seq<string>, b: seq<string>, checked: map<string, bool>)
    ensures CountChecked(a + b, checked) == CountChecked(a, checked) + CountChecked(b, checked)
    decreases |a|
  {
    if a == [] {
      assert a + b == b;
    } else {
      assert (a + b)[0] == a[0];
      assert (a + b)[1..] == a[1..] + b;
      CountCheckedAppend(a[1..], b, checked);
    }
  }

  lemma {:induction false} CountCheckedIsCardinality(ids: seq<string>, checked: map<string, bool>)
    requires Distinct(ids)
    ensures CountChecked(ids, checked) == |set id | id in ids && IsChecked(checked, id)|
    decreases |ids|
  {
    if ids != [] {
      var rest := ids[1..];
      CountCheckedIsCardinality(rest, checked);
      var all := set id | id in ids && IsChecked(checked, id);
      var later := set id | id in rest && IsChecked(checked, id);
      assert ids[0] !in rest by {
        forall i | 0 <= i < |rest| ensures rest[i] != ids[0] {
          assert rest[i] == ids[i + 1];
        }
      }
      if IsChecked(checked, ids[0]) {
        assert all == later + {ids[0]};
      } else {
        assert all == later;
      }
    }
  }

  /**
   * Over three id lists that together hold no duplicate and cover every key,
   * the overall count is the sum of the three lists' counts.
   */
  lemma SumOfThreeCounts(a: seq<string>, b: seq<string>, c: seq<string>, ids: seq<string>, checked: map<string, bool>)
    requires ids == a + b + c && Distinct(ids)
    requires forall id :: id in checked ==> id in ids
    ensures TotalChecked(checked) == CountChecked(a, checked) + CountChecked(b, checked) + CountChecked(c, checked)
  {
    CountCheckedIsCardinality(a + b + c, checked);
    assert CheckedIds(checked) == set id | id in a + b + c && IsChecked(checked, id);
    CountCheckedAppend(a + b, c, checked);
    CountCheckedAppend(a, b, checked);
  }

  /**
   * While the map holds task ids only, the overall count is the sum of the
   * three phases' completed counts.
   */
  lemma TotalCheckedIsSumOfPhases(checked: map<string, bool>)
    requires TaskKeysOnly(checked)
    ensures TotalChecked(checked) ==
              CompletedCount(Dietary, checked) + CompletedCount(Medication, checked) + CompletedCount(ProcedureDay, checked)
  {
    ContentIdsDistinct();
    PhaseIds();
    SumOfThreeCounts(DietaryIds, MedicationIds, ProcedureIds, TaskIdList, checked);
  }

  /**
   * When the overall count is the sum of three phases' counts, it reaches the
   * phases' task total exactly when every task of the three is checked.
   */
  lemma CompleteOfThree(p0: Phase, p1: Phase, p2: Phase, checked: map<string, bool>)
    requires TotalChecked(checked) == CompletedCount(p0, checked) + CompletedCount(p1, checked) + CompletedCount(p2, checked)
    ensures TotalChecked(checked) <= TotalTasks([p0, p1, p2])
    ensures TotalChecked(checked) == TotalTasks([p0, p1, p2]) <==>
              forall p, t :: p in [p0, p1, p2] && t in p.tasks ==> IsChecked(checked, t.id)
  {
    CompletedCountExtremes(p0, checked);
    CompletedCountExtremes(p1, checked);
    CompletedCountExtremes(p2, checked);
    assert TotalTasks([p0, p1, p2]) == |p0.tasks| + |p1.tasks| + |p2.tasks| by {
      assert [p0, p1, p2][1..] == [p1, p2];
      assert [p1, p2][1..] == [p2];
      assert [p2][1..] == [];
      assert TotalTasks([p2]) == |p2.tasks|;
      assert TotalTasks([p1, p2]) == |p1.tasks| + |p2.tasks|;
    }
    var all := forall p, t :: p in [p0, p1, p2] && t in p.tasks ==> IsChecked(checked, t.id);
    assert all <==>
      (forall t :: t in p0.tasks ==> IsChecked(checked, t.id)) &&
      (forall t :: t in p1.tasks ==> IsChecked(checked, t.id)) &&
      (forall t :: t in p2.tasks ==> IsChecked(checked, t.id));
  }

  /**
   * While the map holds task ids only, at most all tasks are checked, and
   * "all tasks complete" holds exactly when every task of every phase is checked.
   */
  lemma AllCompleteIffEveryTaskChecked(checked: map<string, bool>)
    requires TaskKeysOnly(checked)
    ensures TotalChecked(checked) <= TotalTasks(Phases)
    ensures AllComplete(checked) <==> forall p, t :: p in Phases && t in p.tasks ==> IsChecked(checked, t.id)
  {
    TotalCheckedIsSumOfPhases(checked);
    CompleteOfThree(Dietary, Medication, ProcedureDay, checked);
  }

  lemma {:induction false} CountIgnoresOtherKeys(ids: seq<string>, checked: map<string, bool>, id: string)
    requires id !in ids
    ensures CountChecked(ids, checked) == CountChecked(ids, checked - {id})
    decreases |ids|
  {
    if ids != [] {
      CountIgnoresOtherKeys(ids[1..], checked, id);
    }
  }

  /** Each true entry adds exactly one to the overall count. */
  lemma TrueEntryCountsOnce(checked: map<string, bool>, id: string)
    requires IsChecked(checked, id)
    ensures TotalChecked(checked) == 1 + TotalChecked(checked - {id})
  {
    assert CheckedIds(checked) == CheckedIds(checked - {id}) + {id};
  }

  /** A true entry outside three covering id lists adds one to the overall count and to none of theirs. */
  lemma ForeignOfThree(a: seq<string>, b: seq<string>, c: seq<string>, ids: seq<string>, checked: map<string, bool>, id: string)
    requires ids == a + b + c && Distinct(ids)
    requires id !in ids && IsChecked(checked, id)
    requires forall k :: k in checked && k != id ==> k in ids
    ensures TotalChecked(checked) ==
              1 + CountChecked(a, checked) + CountChecked(b, checked) + CountChecked(c, checked)
  {
    var rest := checked - {id};
    SumOfThreeCounts(a, b, c, ids, rest);
    TrueEntryCountsOnce(checked, id);
    assert id !in a + b;
    CountIgnoresOtherKeys(a, checked, id);
    CountIgnoresOtherKeys(b, checked, id);
    CountIgnoresOtherKeys(c, checked, id);
  }

  /**
   * A true entry under an id that belongs to no task (one read back from
   * storage) counts towards the overall total but towards no phase.
   */
  lemma ForeignEntryCounts(checked: map<string, bool>, id: string)
    requires id !in TaskIdList && IsChecked(checked, id)
    requires forall k :: k in checked && k != id ==> k in TaskIdList
    ensures TotalChecked(checked) ==
              1 + CompletedCount(Dietary, checked) + CompletedCount(Medication, checked) + CompletedCount(ProcedureDay, checked)
  {
    ContentIdsDistinct();
    PhaseIds();
    ForeignOfThree(DietaryIds, MedicationIds, ProcedureIds, TaskIdList, checked, id);
  }

  lemma ToggleKeepsTaskKeys(checked: map<string, bool>, id: string)
    requires TaskKeysOnly(checked) && id in TaskIdList
    ensures TaskKeysOnly(Toggle(checked, id))
  {
  }

  // ---------------------------------------------------------------------
  // Phase expansion
  // ---------------------------------------------------------------------

  /** `expandedPhases[phase.id] !== false`: a phase is expanded unless its entry is false. */
  predicate IsExpanded(expanded: map<string, bool>, phaseId: string) {
    !(phaseId in expanded && !expanded[phaseId])
  }

  /**
   * The map `togglePhase` installs: the entry becomes `!prev[phaseId]`, so an
   * absent entry becomes true and its phase stays expanded.
   */
  function FlipPhase(expanded: map<string, bool>, phaseId: string): (r: map<string, bool>)
    ensures phaseId in r
    ensures phaseId in expanded ==> IsExpanded(r, phaseId) == !IsExpanded(expanded, phaseId)
    ensures phaseId !in expanded ==> IsExpanded(r, phaseId) && IsExpanded(expanded, phaseId)
    ensures r.Keys == expanded.Keys + {phaseId}
    ensures forall other :: other in expanded && other != phaseId ==> r[other] == expanded[other]
  {
    expanded[phaseId := !(phaseId in expanded && expanded[phaseId])]
  }

  /** The initial expansion map. */
  const InitialExpanded: map<string, bool> := map["dietary" := true, "medication" := true, "procedure" := true]

  /** Every phase starts expanded, with an entry of its own. */
  lemma InitiallyAllExpanded()
    ensures forall p :: p in Phases ==> p.id in InitialExpanded && IsExpanded(InitialExpanded, p.id)
  {
  }

  /** Once every phase has an entry, each toggle of a phase flips its expansion. */
  lemma {:induction false} PhaseTogglesFlip(expanded: map<string, bool>, ids: seq<string>, phaseId: string)
    requires phaseId in expanded
    ensures var r := FlipAll(expanded, ids);
            phaseId in r && IsExpanded(r, phaseId) == (IsExpanded(expanded, phaseId) != (multiset(ids)[phaseId] % 2 == 1))
    decreases |ids|
  {
    if ids != [] {
      PhaseTogglesFlip(FlipPhase(expanded, ids[0]), ids[1..], phaseId);
      assert ids == [ids[0]] + ids[1..];
      assert multiset(ids) == multiset{ids[0]} + multiset(ids[1..]);
    }
  }

  /** The effect of toggling the given phases one after the other. */
  function FlipAll(expanded: map<string, bool>, ids: seq<string>): map<string, bool>
    decreases |ids|
  {
    if ids == [] then expanded else FlipAll(FlipPhase(expanded, ids[0]), ids[1..])
  }

  // ---------------------------------------------------------------------
  // Storage and the screen
  // ---------------------------------------------------------------------

  datatype Write = Write(key: string, value: map<string, bool>)

  /**
   * The key-value store. A value is the map whose serialised text is stored;
   * `log` records every write, in order.
   */
  class Store {
    var entries: map<string, map<string, bool>>
    var log: seq<Write>

    constructor(initial: map<string, map<string, bool>>)
      ensures entries == initial && log == []
    {
      entries := initial;
      log := [];
    }

    /** `getItem`: the stored value, or nothing when the key is absent. */
    function GetItem(key: string): Option<map<string, bool>>
      reads this
    {
      if key in entries then Some(entries[key]) else None
    }

    method SetItem(key: string, value: map<string, bool>)
      modifies this
      ensures entries == old(entries)[key := value]
      ensures log == old(log) + [Write(key, value)]
    {
      entries := entries[key := value];
      log := log + [Write(key, value)];
    }
  }

  /** `ChecklistScreen`: the two state hooks become fields replaced in place. */
  class ChecklistScreen {
    var checkedTasks: map<string, bool>
    var expandedPhases: map<string, bool>
    const store: Store

    /** The stored copy under the key is the map on screen. */
    predicate Persisted()
      reads this, store
    {
      StorageKey in store.entries && store.entries[StorageKey] == checkedTasks
    }

    /** Screen activation, before the stored map has been read. */
    constructor(store: Store)
      ensures this.store == store
      ensures checkedTasks == map[] && expandedPhases == InitialExpanded
    {
      this.store := store;
      checkedTasks := map[];
      expandedPhases := InitialExpanded;
    }

    /** The load effect: a stored value replaces the checked map; otherwise it stays. */
    method LoadChecked()
      modifies this`checkedTasks
      ensures StorageKey in store.entries ==> checkedTasks == store.entries[StorageKey] && Persisted()
      ensures StorageKey !in store.entries ==> checkedTasks == old(checkedTasks)
    {
      var val := store.GetItem(StorageKey);
      if val.Some? {
        checkedTasks := val.value;
      }
    }

    /** `saveChecked`: install the map and write the whole of it under the one key. */
    method SaveChecked(updated: map<string, bool>)
      modifies this`checkedTasks, store
      ensures checkedTasks == updated && Persisted()
      ensures store.entries == old(store.entries)[StorageKey := updated]
      ensures store.log == old(store.log) + [Write(StorageKey, updated)]
    {
      checkedTasks := updated;
      store.SetItem(StorageKey, updated);
    }

    /** `toggleTask`: flip one task; every other entry, and the phases, stay. */
    method ToggleTask(taskId: string)
      modifies this`checkedTasks, store
      ensures checkedTasks == Toggle(old(checkedTasks), taskId) && Persisted()
      ensures store.entries == old(store.entries)[StorageKey := checkedTasks]
      ensures store.log == old(store.log) + [Write(StorageKey, checkedTasks)]
    {
      var updated := checkedTasks[taskId := !IsChecked(checkedTasks, taskId)];
      SaveChecked(updated);
    }

    /** `togglePhase`: flip one phase's entry, in memory only. */
    method TogglePhase(phaseId: string)
      modifies this`expandedPhases
      ensures expandedPhases == FlipPhase(old(expandedPhases), phaseId)
    {
      expandedPhases := expandedPhases[phaseId := !(phaseId in expandedPhases && expandedPhases[phaseId])];
    }

    /** `handleReset`: save the empty map; the phases' expansion is left alone. */
    method HandleReset()
      modifies this`checkedTasks, store
      ensures checkedTasks == map[] && TotalChecked(checkedTasks) == 0 && Persisted()
      ensures store.entries == old(store.entries)[StorageKey := map[]]
      ensures store.log == old(store.log) + [Write(StorageKey, map[])]
    {
      SaveChecked(map[]);
    }
  }
}
