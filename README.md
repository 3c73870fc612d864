# Spring IDE: Cloud Foundry run-state tracking and the multi-selection field model, in Dafny

This project models two small components of Spring IDE and proves properties
of them.

**Run-state tracking** (`ApplicationRunningStateTracker`, boot dashboard).
The tracker maps the state the Cloud Foundry platform reports for each
instance of an application to the IDE's `RunState`. It folds those states into
one application-level state with `RunState.merge`. It also polls the platform
until the application is RUNNING or FLAPPING, the two-minute budget is spent,
or the user cancels through the progress monitor.
- Modules: `CloudFoundry` (value types) and `RunningStateTracker` (mapping, fold, polling loop).
- Java null is `Option.None`. A thrown exception is `Outcome.Thrown`.
- `RunState.merge` is not part of this model. Every operation that merges takes it as a
  parameter (`merge`), and no ordering of run states is assumed. It is taken to be a total
  function that returns a run state (see `## Left out`).
- The platform and the environment are a sequence of `Poll` records, one per loop iteration.
  Each record holds the clock reading, the monitor's cancellation flag and the client's answer.
  The first clock reading is the parameter `start`.

**Multi-selection field model** (`MultiSelectionFieldModel`, getting-started wizard).
This is a class whose fields the methods update in place:
- an insertion-ordered label map, as `choices` (the key order) and `labels`;
- tooltip and enablement maps that stay null until first used;
- a sort flag;
- the selection set.

`getChoices` copies the choices into a fresh array. After `sort()` it sorts that
array in place by label with Java's `String.compareTo` (module `StringOrder`).

Three behaviours of the code worth knowing:
- The application-level state is not always a run state. A record whose instance state is
  null makes the fold yield null. A later non-null record then makes it fail with a
  null-pointer exception (`RecordsFoldOutcome` states exactly when each happens).
- The code defines no ranking of run states; `merge` stays a parameter.
- A FLAPPING result ends the polling loop like RUNNING does, but it still logs the timeout
  warning. Only RUNNING logs the success message.

## Model

| member | source | states |
|---|---|---|
| `RunningStateTracker.InstanceRunState` | plugins/org.springframework.ide.eclipse.boot.dash/src/org/springframework/ide/eclipse/boot/dash/cloudfoundry/ApplicationRunningStateTracker.java:95-121 | a null instance state maps to null and every non-null one to a run state; any state outside the five named ones maps to UNKNOWN |
| `RunningStateTracker.InstanceMappingTable` | plugins/org.springframework.ide.eclipse.boot.dash/src/org/springframework/ide/eclipse/boot/dash/cloudfoundry/ApplicationRunningStateTracker.java:98-117 | the mapping table read in both directions: RUNNING, CRASHED, FLAPPING and STARTING come exactly from their namesakes, INACTIVE exactly from DOWN, UNKNOWN exactly from the unnamed states |
| `RunningStateTracker.MergeStep` | plugins/org.springframework.ide.eclipse.boot.dash/src/org/springframework/ide/eclipse/boot/dash/cloudfoundry/ApplicationRunningStateTracker.java:144-145 | one step of the fold fails exactly when a non-null state meets a null accumulator, and yields null exactly when the instance state is null |
| `RunningStateTracker.RecordsFold` | plugins/org.springframework.ide.eclipse.boot.dash/src/org/springframework/ide/eclipse/boot/dash/cloudfoundry/ApplicationRunningStateTracker.java:139-149 | the fold over the records from UNKNOWN in record order; the only failure it can end in is a null-pointer exception |
| `RunningStateTracker.RecordsFoldOutcome` | plugins/org.springframework.ide.eclipse.boot.dash/src/org/springframework/ide/eclipse/boot/dash/cloudfoundry/ApplicationRunningStateTracker.java:142-147 | the fold fails iff a null instance state is followed by a non-null one, yields null iff some state is null and none follows it, and yields a run state iff no state is null |
| `RunningStateTracker.RecordsFoldThrownPersists` | plugins/org.springframework.ide.eclipse.boot.dash/src/org/springframework/ide/eclipse/boot/dash/cloudfoundry/ApplicationRunningStateTracker.java:142-147 | once the fold over a prefix of the records has failed, the fold over all of them fails with a null-pointer exception |
| `RunningStateTracker.MappedStates` | plugins/org.springframework.ide.eclipse.boot.dash/src/org/springframework/ide/eclipse/boot/dash/cloudfoundry/ApplicationRunningStateTracker.java:142-144 | for records without a null state, the mapped run states, one per record and in order |
| `RunningStateTracker.RecordsFoldIsMergeAll` | plugins/org.springframework.ide.eclipse.boot.dash/src/org/springframework/ide/eclipse/boot/dash/cloudfoundry/ApplicationRunningStateTracker.java:139-147 | without null states the result is merge(...merge(UNKNOWN, s1)..., sn) over the mapped states in record order |
| `RunningStateTracker.MergeAllAppend` | plugins/org.springframework.ide.eclipse.boot.dash/src/org/springframework/ide/eclipse/boot/dash/cloudfoundry/ApplicationRunningStateTracker.java:142-147 | folding a concatenation of state sequences folds the second from the first one's result |
| `RunningStateTracker.MergeAllSwap` | plugins/org.springframework.ide.eclipse.boot.dash/src/org/springframework/ide/eclipse/boot/dash/cloudfoundry/ApplicationRunningStateTracker.java:142-147 | record order reaches the result only through merge: for a commutative and associative merge, swapping two neighbouring states leaves the fold unchanged |
| `RunningStateTracker.StatsFold` | plugins/org.springframework.ide.eclipse.boot.dash/src/org/springframework/ide/eclipse/boot/dash/cloudfoundry/ApplicationRunningStateTracker.java:138-150 | null statistics, a null record list or an empty one give UNKNOWN; otherwise the result is the fold of the records |
| `RunningStateTracker.StatsRunState` | plugins/org.springframework.ide.eclipse.boot.dash/src/org/springframework/ide/eclipse/boot/dash/cloudfoundry/ApplicationRunningStateTracker.java:138-150 | the accumulator loop over the records returns exactly the fold, including its null result and its null-pointer failure |
| `RunningStateTracker.AppRunState` | plugins/org.springframework.ide.eclipse.boot.dash/src/org/springframework/ide/eclipse/boot/dash/cloudfoundry/ApplicationRunningStateTracker.java:123-136 | without records the application is INACTIVE when its desired state is STOPPED and UNKNOWN otherwise; with records it is the fold of the records |
| `RunningStateTracker.AppRunStateWithRecords` | plugins/org.springframework.ide.eclipse.boot.dash/src/org/springframework/ide/eclipse/boot/dash/cloudfoundry/ApplicationRunningStateTracker.java:123-136 | with at least one record the desired state does not matter, and if no record state is null the result is the left merge of the mapped states from UNKNOWN |
| `RunningStateTracker.StartTracking` | plugins/org.springframework.ide.eclipse.boot.dash/src/org/springframework/ide/eclipse/boot/dash/cloudfoundry/ApplicationRunningStateTracker.java:42-93 | at least one iteration runs; every iteration but the last continues (not cancelled, sampled without failure, not RUNNING or FLAPPING, clock before start + 120000 ms); the last one is cancelled with no fetch, or ends in the failure or in the state of its sample, which is RUNNING, FLAPPING or read at or after the deadline; one unit of work per completed fetch; the warning is logged exactly when a state other than RUNNING is returned |
| `StringOrder.CompareToAntisymmetric` | plugins/org.springframework.ide.eclipse.wizard/src/org/springframework/ide/eclipse/wizard/gettingstarted/boot/MultiSelectionFieldModel.java:141-147 | the label comparator's `compareTo` changes sign when its operands are swapped |
| `StringOrder.CompareToZero` | plugins/org.springframework.ide.eclipse.wizard/src/org/springframework/ide/eclipse/wizard/gettingstarted/boot/MultiSelectionFieldModel.java:141-147 | `compareTo` is zero exactly on equal labels |
| `StringOrder.NotAfterTotal` | plugins/org.springframework.ide.eclipse.wizard/src/org/springframework/ide/eclipse/wizard/gettingstarted/boot/MultiSelectionFieldModel.java:141-147 | any two labels are ordered one way or the other |
| `StringOrder.NotAfterTransitive` | plugins/org.springframework.ide.eclipse.wizard/src/org/springframework/ide/eclipse/wizard/gettingstarted/boot/MultiSelectionFieldModel.java:141-147 | the label order is transitive |
| `MultiSelection.MultiSelectionFieldModel.constructor` | plugins/org.springframework.ide.eclipse.wizard/src/org/springframework/ide/eclipse/wizard/gettingstarted/boot/MultiSelectionFieldModel.java:40-55 | the field's label is its name; there are no choices, no selection and no sorting; the tooltip and enablement maps are not allocated, so every value has no label and no tooltip and is always enabled |
| `MultiSelection.MultiSelectionFieldModel.GetLabel` | plugins/org.springframework.ide.eclipse.wizard/src/org/springframework/ide/eclipse/wizard/gettingstarted/boot/MultiSelectionFieldModel.java:65-67 | only a registered choice can have a non-null label |
| `MultiSelection.MultiSelectionFieldModel.GetTooltip` | plugins/org.springframework.ide.eclipse.wizard/src/org/springframework/ide/eclipse/wizard/gettingstarted/boot/MultiSelectionFieldModel.java:124-129 | every tooltip is null while the tooltip map is not allocated |
| `MultiSelection.MultiSelectionFieldModel.GetEnablement` | plugins/org.springframework.ide.eclipse.wizard/src/org/springframework/ide/eclipse/wizard/gettingstarted/boot/MultiSelectionFieldModel.java:156-164 | every choice is always enabled while the enablement map is not allocated |
| `MultiSelection.MultiSelectionFieldModel.Add` | plugins/org.springframework.ide.eclipse.wizard/src/org/springframework/ide/eclipse/wizard/gettingstarted/boot/MultiSelectionFieldModel.java:86-88 | the value joins the selection; nothing else changes |
| `MultiSelection.MultiSelectionFieldModel.Remove` | plugins/org.springframework.ide.eclipse.wizard/src/org/springframework/ide/eclipse/wizard/gettingstarted/boot/MultiSelectionFieldModel.java:89-91 | the value leaves the selection; nothing else changes |
| `MultiSelection.MultiSelectionFieldModel.Choice` | plugins/org.springframework.ide.eclipse.wizard/src/org/springframework/ide/eclipse/wizard/gettingstarted/boot/MultiSelectionFieldModel.java:98-102 | fails with an illegal argument, changing nothing, exactly when the value already has a non-null label; otherwise the label is recorded, a new value is appended to the choices and a known one keeps its place, no other label changes, and the choices stay distinct and match the label map |
| `MultiSelection.MultiSelectionFieldModel.SetTooltip` | plugins/org.springframework.ide.eclipse.wizard/src/org/springframework/ide/eclipse/wizard/gettingstarted/boot/MultiSelectionFieldModel.java:117-122 | the tooltip map is allocated if needed, the value's tooltip becomes the given text, and no other value's tooltip changes |
| `MultiSelection.MultiSelectionFieldModel.ChoiceWithTooltip` | plugins/org.springframework.ide.eclipse.wizard/src/org/springframework/ide/eclipse/wizard/gettingstarted/boot/MultiSelectionFieldModel.java:104-107 | the same failure and effect as choice, and on success the tooltip is recorded too; on failure the tooltips are untouched |
| `MultiSelection.MultiSelectionFieldModel.ChoiceWithEnablement` | plugins/org.springframework.ide.eclipse.wizard/src/org/springframework/ide/eclipse/wizard/gettingstarted/boot/MultiSelectionFieldModel.java:109-115 | as the tooltip variant, and on success the enablement map is allocated if needed and the value's enablement becomes the given one (the always-enabled constant for null); no other enablement changes |
| `MultiSelection.MultiSelectionFieldModel.Sort` | plugins/org.springframework.ide.eclipse.wizard/src/org/springframework/ide/eclipse/wizard/gettingstarted/boot/MultiSelectionFieldModel.java:152-154 | sets the sort flag and changes nothing else |
| `MultiSelection.MultiSelectionFieldModel.GetChoices` | plugins/org.springframework.ide.eclipse.wizard/src/org/springframework/ide/eclipse/wizard/gettingstarted/boot/MultiSelectionFieldModel.java:137-150 | a fresh array; without sorting it holds the choices, each once, in insertion order; with sorting it is a permutation of them in ascending label order, and it fails with a null-pointer exception exactly when there are two or more choices and one has a null label |
| `MultiSelection.SortByLabel` | plugins/org.springframework.ide.eclipse.wizard/src/org/springframework/ide/eclipse/wizard/gettingstarted/boot/MultiSelectionFieldModel.java:141-147 | sorts the array in place into ascending label order, keeping its elements |

## Left out

- `Thread.sleep(WAIT_TIME)` is omitted: waiting does not change any modelled value.
- The monitor's task name, the time-left text and the estimated number of attempts are omitted. Only the cancellation flag and the units of work are kept.
- The log and warning messages are reduced to the flag `warned`.
- `System.currentTimeMillis` and `client.getApplicationStats` are inputs, one reading of each per `Poll` record.
- StartTracking: requires that some clock reading reaches the deadline. A clock that never advances would make the Java loop run forever.
- StartTracking: Java `long` overflow of `start + TIMEOUT` is not modelled. Clock readings are unbounded integers.
- AppRunState: `instances`, its application and the desired state are taken as non-null. A null desired state behaves like any state other than STOPPED, and `Started` stands for it.
- RecordsFold: a null element of the record list (not a null state) is not modelled. The Java loop would fail on it.
- The body of `RunState.merge` is not part of this model. No ordering of run states is assumed.
- MergeStep: `merge` is taken to return a non-null run state and never to throw. If it could, the fold, `RecordsFoldOutcome` and `StartTracking` would have further null and failure outcomes that the model does not show.
- GetChoices, SortByLabel: do not state that choices with equal labels keep their insertion order, although `Arrays.sort` is stable.
- GetChoices: the reflective array creation is replaced by an array of the element type. `synchronized` is dropped. The `type` field and `getType` are not modelled; the element type is the type parameter `T`.
- `StringOrder.CompareTo` compares Unicode scalar values. Java compares UTF-16 code units, so the two can order characters outside the Basic Multilingual Plane differently.
- `LiveSet`, `LiveExpression` and `Validator` are reduced to a plain set and opaque `Enablement` handles. Change notifications, the `validator` field and its accessors are not modelled.
- The plain accessors `getName`, `getLabel()`, `label(String)` and `getSelecteds` are not modelled separately. The fields they read or write are fields of the class.
- `BeansModelLabelDecorator` and `FocusAopReferenceModelNavigatorAction` are not part of this model. They are thin wrappers over Eclipse workspace and UI APIs.
