/** The training sets read back from the observations table: the column
    lists of the braking and steering sets and the `SELECT` statements built
    from them with the comma joiner `list2list`. */
module DataExtended {
  import opened Text

  /** `list2list`: appends `entry, ` for every entry, then drops the last two
      characters, which leaves the empty string for an empty list. */
  method List2List(list: seq<string>) returns (s: string)
    ensures s == Join(", ", list)
    ensures |list| == 0 ==> s == ""
    ensures |list| == 1 ==> s == list[0]
    ensures |list| > 0 ==> |s| == TotalLength(list) + 2 * (|list| - 1)
  {
    var acc := "";
    for i := 0 to |list|
      invariant acc == Terminated(list[..i], ", ")
    {
      TerminatedStep("", list[..i], list[i], ", ");
      assert list[..i + 1] == list[..i] + [list[i]];
      acc := acc + (list[i] + ", ");
    }
    assert list[..|list|] == list;
    DropLastTwo(acc);
    s := Slice(acc, 0, -2);
    if |list| > 0 {
      CutTerminated("", list[0], list[1..], ", ");
      TerminatedConcat([list[0]], list[1..], ", ");
      TerminatedAppend([], list[0], ", ");
      assert [] + [list[0]] == [list[0]] && [list[0]] + list[1..] == list;
      JoinLength(", ", list);
    }
  }

  /** The two training sets. */
  datatype Model = Braking | Steering

  /** The sensor columns both sets read. */
  const DataColumns: seq<string> := [
    "angle", "speedX", "speedY", "speedZ",
    "track0", "track1", "track2", "track3", "track4", "track5", "track6", "track7", "track8", "track9",
    "track10", "track11", "track12", "track13", "track14", "track15", "track16", "track17", "track18",
    "trackPos", "wheelSpinVel0", "wheelSpinVel1", "wheelSpinVel2", "wheelSpinVel3", "z",
    "focus0", "focus1", "focus2", "focus3", "focus4"]

  /** `getDataColumns`: the same 34 columns for both sets. */
  function DataColumnsOf(m: Model): (columns: seq<string>)
    ensures |columns| == 34
  {
    DataColumns
  }

  /** `getTargetColumns`: the brake for the braking set, the steering for the
      steering set. */
  function TargetColumnsOf(m: Model): (columns: seq<string>)
    ensures |columns| == 1
  {
    match m
    case Braking => ["brake"]
    case Steering => ["steer"]
  }

  /** `SELECT c1, ..., cn FROM observations`. */
  function Select(columns: seq<string>): string {
    "SELECT " + Join(", ", columns) + " FROM observations"
  }

  /** The two queries the constructor builds, each with `list2list`. */
  method Queries(m: Model) returns (sqlData: string, sqlTarget: string)
    ensures sqlData == Select(DataColumnsOf(m)) && sqlTarget == Select(TargetColumnsOf(m))
  {
    var data := List2List(DataColumnsOf(m));
    sqlData := "SELECT " + data + " FROM observations";
    var target := List2List(TargetColumnsOf(m));
    sqlTarget := "SELECT " + target + " FROM observations";
  }

  /** The target query selects the one target column alone. */
  lemma TargetQuery(m: Model)
    ensures Select(TargetColumnsOf(m)) == "SELECT " + (if m == Braking then "brake" else "steer") + " FROM observations"
  {
  }
}
