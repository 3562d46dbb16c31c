/** The init listener: which task functions the simulated users run, from the --tasks option. */
module TaskList {
  import opened Wrappers
  import opened Strings

  /** The thirteen task functions of the user class. */
  datatype TaskKind =
    | GetMiradorThumbnail | GetUVThumbnail | GetThumbnailPanel | ZoomToPoint | VirtualReading
    | CustomRegion | FullImageSized | FullImage | HalfScale | GrayScale | BitonalQuality
    | MirroringFull | RotationRandomSize

  /** The task names run when --tasks is empty, in this order. */
  const DefaultTaskNames: seq<string> := [
    "getMiradorThumbnail", "getUVThumbnail", "getThumbnailPanel", "zoomToPoint",
    "virtualReading", "customRegion", "fullImageSized", "fullImage", "halfScale", "grayScale",
    "bitonalQuality", "mirroringFull", "rotationRandomSize"]

  /** task_mapping: name to task function. */
  const TaskMapping: map<string, TaskKind> := map[
    "getMiradorThumbnail" := GetMiradorThumbnail,
    "getUVThumbnail" := GetUVThumbnail,
    "getThumbnailPanel" := GetThumbnailPanel,
    "zoomToPoint" := ZoomToPoint,
    "virtualReading" := VirtualReading,
    "customRegion" := CustomRegion,
    "fullImageSized" := FullImageSized,
    "fullImage" := FullImage,
    "halfScale" := HalfScale,
    "grayScale" := GrayScale,
    "bitonalQuality" := BitonalQuality,
    "mirroringFull" := MirroringFull,
    "rotationRandomSize" := RotationRandomSize]

  /** The task functions in the default order. */
  const AllTasks: seq<TaskKind> := [
    GetMiradorThumbnail, GetUVThumbnail, GetThumbnailPanel, ZoomToPoint, VirtualReading,
    CustomRegion, FullImageSized, FullImage, HalfScale, GrayScale, BitonalQuality,
    MirroringFull, RotationRandomSize]

  /** The method name of a task function. */
  function NameOf(k: TaskKind): string {
    match k
    case GetMiradorThumbnail => "getMiradorThumbnail"
    case GetUVThumbnail => "getUVThumbnail"
    case GetThumbnailPanel => "getThumbnailPanel"
    case ZoomToPoint => "zoomToPoint"
    case VirtualReading => "virtualReading"
    case CustomRegion => "customRegion"
    case FullImageSized => "fullImageSized"
    case FullImage => "fullImage"
    case HalfScale => "halfScale"
    case GrayScale => "grayScale"
    case BitonalQuality => "bitonalQuality"
    case MirroringFull => "mirroringFull"
    case RotationRandomSize => "rotationRandomSize"
  }

  /** Each name looked up in the mapping, in order; the first unknown name raises KeyError. */
  function Lookup(names: seq<string>): (r: Result<seq<TaskKind>>)
    ensures r.Ok? <==> forall i :: 0 <= i < |names| ==> names[i] in TaskMapping
    ensures r.Ok? ==> |r.value| == |names| && forall i :: 0 <= i < |names| ==> r.value[i] == TaskMapping[names[i]]
    ensures r.Err? ==> exists i :: 0 <= i < |names| && names[i] !in TaskMapping && r.error == KeyError(names[i])
                                  && forall j :: 0 <= j < i ==> names[j] in TaskMapping
  {
    if names == [] then Ok([])
    else if names[0] !in TaskMapping then Err(KeyError(names[0]))
    else
      match Lookup(names[1..])
      case Err(e) => Err(e)
      case Ok(rest) => Ok([TaskMapping[names[0]]] + rest)
  }

  /** The names to run: the option split on commas, or the default list when it is empty. */
  function TasksToRun(tasksArg: string): (names: seq<string>)
    ensures |names| >= 1
    ensures tasksArg == "" ==> names == DefaultTaskNames
    ensures tasksArg != "" ==> Join(names, ',') == tasksArg && forall i :: 0 <= i < |names| ==> ',' !in names[i]
  {
    if tasksArg == "" then DefaultTaskNames
    else
      JoinSplit(tasksArg, ',');
      Split(tasksArg, ',')
  }

  /** The list assigned to the user class's tasks, or the KeyError that prevents the assignment:
      one task function per name, each the function of that name. */
  function BuildTaskList(tasksArg: string): (r: Result<seq<TaskKind>>)
    ensures r.Ok? <==> forall i :: 0 <= i < |TasksToRun(tasksArg)| ==> TasksToRun(tasksArg)[i] in TaskMapping
    ensures r.Ok? ==> |r.value| == |TasksToRun(tasksArg)|
    ensures r.Ok? ==> forall i :: 0 <= i < |r.value| ==> NameOf(r.value[i]) == TasksToRun(tasksArg)[i]
    ensures r.Err? ==> r.error.KeyError? && r.error.key in TasksToRun(tasksArg) && r.error.key !in TaskMapping
  {
    MappingIsNameOfInverse();
    Lookup(TasksToRun(tasksArg))
  }

  /** The mapping and NameOf are inverse: each task function has exactly one name. */
  lemma MappingIsNameOfInverse()
    ensures forall k :: NameOf(k) in TaskMapping && TaskMapping[NameOf(k)] == k
    ensures forall n :: n in TaskMapping ==> NameOf(TaskMapping[n]) == n
  {
  }

  lemma InverseAt(k: TaskKind)
    ensures NameOf(k) in TaskMapping && TaskMapping[NameOf(k)] == k
  {
    MappingIsNameOfInverse();
  }

  /** A lookup of known names gives their task functions, position by position. */
  lemma LookupKnown(names: seq<string>, kinds: seq<TaskKind>)
    requires |names| == |kinds|
    requires forall i :: 0 <= i < |names| ==> names[i] in TaskMapping && TaskMapping[names[i]] == kinds[i]
    ensures Lookup(names) == Ok(kinds)
  {
    assert Lookup(names).value == kinds;
  }

  lemma DefaultNamesAreNames()
    ensures |DefaultTaskNames| == |AllTasks|
    ensures forall i :: 0 <= i < |AllTasks| ==> DefaultTaskNames[i] == NameOf(AllTasks[i])
  {
  }

  /** With no --tasks the run has all thirteen task functions, each once, in the fixed order. */
  lemma DefaultTaskList()
    ensures BuildTaskList("") == Ok(AllTasks)
  {
    DefaultLookup();
  }

  /** The default order lists each of the thirteen task functions exactly once. */
  lemma AllTasksOnceEach()
    ensures |AllTasks| == 13
    ensures forall k :: k in AllTasks
    ensures forall i, j :: 0 <= i < j < |AllTasks| ==> AllTasks[i] != AllTasks[j]
  {
    forall k
      ensures k in AllTasks
    {
      assert AllTasks[IndexOf(k)] == k;
    }
  }

  lemma DefaultLookup()
    ensures Lookup(DefaultTaskNames) == Ok(AllTasks)
  {
    forall i | 0 <= i < |DefaultTaskNames|
      ensures DefaultTaskNames[i] in TaskMapping && TaskMapping[DefaultTaskNames[i]] == AllTasks[i]
    {
      DefaultNamesAreNames();
      InverseAt(AllTasks[i]);
    }
    LookupKnown(DefaultTaskNames, AllTasks);
  }

  /** The position of each task function in the default order. */
  function IndexOf(k: TaskKind): nat {
    match k
    case GetMiradorThumbnail => 0
    case GetUVThumbnail => 1
    case GetThumbnailPanel => 2
    case ZoomToPoint => 3
    case VirtualReading => 4
    case CustomRegion => 5
    case FullImageSized => 6
    case FullImage => 7
    case HalfScale => 8
    case GrayScale => 9
    case BitonalQuality => 10
    case MirroringFull => 11
    case RotationRandomSize => 12
  }

  /** No task name holds a comma, so each survives the split of the option as one piece. */
  lemma NamesHaveNoComma(n: string)
    requires n in TaskMapping
    ensures ',' !in n && n != ""
  {
    MappingIsNameOfInverse();
    match TaskMapping[n]
    case GetMiradorThumbnail =>
    case GetUVThumbnail =>
    case GetThumbnailPanel =>
    case ZoomToPoint =>
    case VirtualReading =>
    case CustomRegion =>
    case FullImageSized =>
    case FullImage =>
    case HalfScale =>
    case GrayScale =>
    case BitonalQuality =>
    case MirroringFull =>
    case RotationRandomSize =>
  }

  /** With --tasks given as known names joined by commas, the run has exactly those task functions,
      in the given order, one entry per name. */
  lemma NamedTaskList(names: seq<string>)
    requires |names| >= 1
    requires forall i :: 0 <= i < |names| ==> names[i] in TaskMapping
    ensures BuildTaskList(Join(names, ',')) == Ok(seq(|names|, i requires 0 <= i < |names| => TaskMapping[names[i]]))
  {
    forall i | 0 <= i < |names|
      ensures ',' !in names[i]
    {
      NamesHaveNoComma(names[i]);
    }
    SplitJoin(names, ',');
    NamesHaveNoComma(names[0]);
    JoinNonEmpty(names, ',');
    LookupKnown(names, seq(|names|, i requires 0 <= i < |names| => TaskMapping[names[i]]));
  }

  /** A non-empty --tasks naming anything that is not a task function fails at the lookup. */
  lemma UnknownNameFails(tasksArg: string, name: string)
    requires tasksArg != ""
    requires name in Split(tasksArg, ',') && name !in TaskMapping
    ensures BuildTaskList(tasksArg).Err? && BuildTaskList(tasksArg).error.KeyError?
  {
  }
}
