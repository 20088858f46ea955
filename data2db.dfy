/** The conversion of logged server buffers into rows of the training-data
    table: the `CREATE TABLE` statement over the fixed key list, and the
    `INSERT` statement built from one logged line `(k v)(k v1 v2)...`. */
module DataToDb {
  import opened Text

  /** The table's columns after `track`, in declaration order. */
  const Keys: seq<string> := [
    "accel", "brake", "gear", "gear2", "steer", "clutch", "curTime", "angle", "curLapTime", "damage",
    "distFromStart", "distRaced", "fuel", "lastLapTime", "racePos",
    "opponents0", "opponents1", "opponents2", "opponents3", "opponents4", "opponents5", "opponents6",
    "opponents7", "opponents8", "opponents9", "opponents10", "opponents11", "opponents12", "opponents13",
    "opponents14", "opponents15", "opponents16", "opponents17", "opponents18", "opponents19", "opponents20",
    "opponents21", "opponents22", "opponents23", "opponents24", "opponents25", "opponents26", "opponents27",
    "opponents28", "opponents29", "opponents30", "opponents31", "opponents32", "opponents33", "opponents34",
    "opponents35", "rpm", "speedX", "speedY", "speedZ",
    "track0", "track1", "track2", "track3", "track4", "track5", "track6", "track7", "track8", "track9",
    "track10", "track11", "track12", "track13", "track14", "track15", "track16", "track17", "track18",
    "trackPos", "wheelSpinVel0", "wheelSpinVel1", "wheelSpinVel2", "wheelSpinVel3", "z",
    "focus0", "focus1", "focus2", "focus3", "focus4"]

  // ---------------------------------------------------------------------------
  // The schema
  // ---------------------------------------------------------------------------

  /** Builds `CREATE TABLE observations (track, k1, ..., kn);` by appending
      `, key` for each key in order. */
  method CreateTable(keys: seq<string>) returns (sql: string)
    ensures sql == "CREATE TABLE observations (" + Join(", ", ["track"] + keys) + ");"
  {
    sql := "CREATE TABLE observations (track";
    for i := 0 to |keys|
      invariant sql == "CREATE TABLE observations (" + "track" + Prefixed(keys[..i], ", ")
    {
      PrefixedAppend(keys[..i], keys[i], ", ");
      assert keys[..i + 1] == keys[..i] + [keys[i]];
      sql := sql + (", " + keys[i]);
    }
    assert keys[..|keys|] == keys;
    PrefixedIsJoin("track", keys, ", ");
    sql := sql + ");";
  }

  /** The schema statement the script runs: the table over `Keys`. */
  method Schema() returns (sql: string)
    ensures sql == "CREATE TABLE observations (" + Join(", ", ["track"] + Keys) + ");"
  {
    sql := CreateTable(Keys);
  }

  // ---------------------------------------------------------------------------
  // One logged line
  // ---------------------------------------------------------------------------

  /** The whitespace-separated tokens of each group. */
  function Tokenized(parts: seq<string>): (groups: seq<seq<string>>)
    ensures |groups| == |parts|
    ensures forall i :: 0 <= i < |parts| ==> groups[i] == Words(parts[i])
  {
    seq(|parts|, i requires 0 <= i < |parts| => Words(parts[i]))
  }

  /** The text of each group of a line: the line is stripped, its first and
      last characters dropped, and the rest split at every `)(`. */
  function Parts(line: string): (parts: seq<string>)
    ensures |parts| >= 1
    ensures Join(")(", parts) == Slice(Strip(line), 1, -1)
    ensures forall k :: 0 <= k < |parts| ==> !Contains(parts[k], ")(")
  {
    SplitPieces(Slice(Strip(line), 1, -1), ")(");
    Split(Slice(Strip(line), 1, -1), ")(")
  }

  /** Each group's tokens are non-empty runs of non-space characters that
      together hold every non-space character of the group, in order. */
  lemma TokensAreWords(parts: seq<string>)
    ensures forall i :: 0 <= i < |parts| ==> Concat(Tokenized(parts)[i]) == NonSpace(parts[i])
    ensures forall i, j :: 0 <= i < |parts| && 0 <= j < |Tokenized(parts)[i]| ==>
      Tokenized(parts)[i][j] != "" && forall c :: 0 <= c < |Tokenized(parts)[i][j]| ==> !IsSpace(Tokenized(parts)[i][j][c])
  {
    forall i | 0 <= i < |parts|
      ensures Concat(Tokenized(parts)[i]) == NonSpace(parts[i])
      ensures forall j :: 0 <= j < |Tokenized(parts)[i]| ==>
        Tokenized(parts)[i][j] != "" && forall c :: 0 <= c < |Tokenized(parts)[i][j]| ==> !IsSpace(Tokenized(parts)[i][j][c])
    {
      WordsCover(parts[i]);
      WordsAreWords(parts[i]);
    }
  }

  /** Every group starts with a key; an empty one makes `pop(0)` raise `IndexError`. */
  predicate Keyed(groups: seq<seq<string>>) {
    forall i :: 0 <= i < |groups| ==> |groups[i]| >= 1
  }

  /** `key0, key1, ...`: the columns of a multi-valued key. */
  function Numbered(key: string, n: nat): (columns: seq<string>)
    ensures |columns| == n
    decreases n
  {
    if n == 0 then [] else Numbered(key, n - 1) + [key + NatToString(n - 1)]
  }

  lemma {:induction false} NumberedColumns(key: string, n: nat)
    ensures forall i :: 0 <= i < n ==> Numbered(key, n)[i] == key + NatToString(i)
    decreases n
  {
    if n > 0 {
      NumberedColumns(key, n - 1);
    }
  }

  /** The columns one group contributes: one per value. */
  function GroupColumns(tokens: seq<string>): (columns: seq<string>)
    requires |tokens| >= 1
    ensures |columns| == |tokens| - 1
  {
    if |tokens| == 2 then [tokens[0]] else Numbered(tokens[0], |tokens| - 1)
  }

  /** A group with exactly one value gives the column named by its key; any
      other group gives the key numbered from 0 once per value, so a key with
      no value gives no column. */
  lemma GroupColumnNames(tokens: seq<string>)
    requires |tokens| >= 1
    ensures |tokens| == 2 ==> GroupColumns(tokens) == [tokens[0]]
    ensures |tokens| != 2 ==> forall i :: 0 <= i < |tokens| - 1 ==> GroupColumns(tokens)[i] == tokens[0] + NatToString(i)
    ensures |tokens| == 1 ==> GroupColumns(tokens) == []
  {
    NumberedColumns(tokens[0], |tokens| - 1);
  }

  /** The columns of all groups, in line order. */
  function Columns(groups: seq<seq<string>>): seq<string>
    requires Keyed(groups)
    decreases |groups|
  {
    if |groups| == 0 then []
    else Columns(groups[..|groups| - 1]) + GroupColumns(groups[|groups| - 1])
  }

  /** The values of all groups, in line order: every token after a key. */
  function Values(groups: seq<seq<string>>): seq<string>
    requires Keyed(groups)
    decreases |groups|
  {
    if |groups| == 0 then []
    else Values(groups[..|groups| - 1]) + groups[|groups| - 1][1..]
  }

  /** The column list and the value list are equally long: every value has
      exactly one column. */
  lemma {:induction false} ColumnsMatchValues(groups: seq<seq<string>>)
    requires Keyed(groups)
    ensures |Columns(groups)| == |Values(groups)|
    decreases |groups|
  {
    if |groups| > 0 {
      ColumnsMatchValues(groups[..|groups| - 1]);
    }
  }

  /** The statement for a line whose groups all have keys. */
  function Statement(fileName: string, groups: seq<seq<string>>): string
    requires Keyed(groups)
  {
    InsertInto + Join(", ", ["track"] + Columns(groups)) + ") "
      + ValuesOpen + Join(", ", ["'" + fileName + "'"] + Values(groups)) + ")"
  }

  /** The statement for a logged line, or `None` where `pop(0)` raises. */
  function Insert(line: string, fileName: string): Option<string> {
    var groups := Tokenized(Parts(line));
    if Keyed(groups) then Some(Statement(fileName, groups)) else None
  }

  /** An empty line has one group with no tokens, so the conversion raises. */
  lemma EmptyLineRaises(fileName: string)
    ensures Insert("", fileName) == None
  {
    assert Parts("") == [""];
    assert Tokenized(Parts(""))[0] == [];
  }

  /** The openings of the column list and of the value list. */
  const InsertInto := "INSERT INTO observations ("
  const ValuesOpen := "VALUES ("

  /** What the two lists hold before the first group: the `track` column and
      the file name, quoted, each followed by `, `. */
  const InsertHead := InsertInto + "track" + ", "
  function ValuesHead(fileName: string): string {
    ValuesOpen + ("'" + fileName + "'") + ", "
  }

  /** Appends one group's `col, ` and `value, ` pieces: the key itself for a
      single value, otherwise the numbered key once per value. */
  method AppendGroup(sqlInsert: string, sqlValues: string, tokens: seq<string>) returns (ins: string, vals: string)
    requires |tokens| >= 1
    ensures ins == sqlInsert + Terminated(GroupColumns(tokens), ", ")
    ensures vals == sqlValues + Terminated(tokens[1..], ", ")
  {
    var key := tokens[0];
    var valueList := tokens[1..];
    ins, vals := sqlInsert, sqlValues;
    if |valueList| == 1 {
      TerminatedStep(sqlInsert, [], key, ", ");
      TerminatedStep(sqlValues, [], valueList[0], ", ");
      assert [] + [valueList[0]] == valueList;
      ins := ins + (key + ", ");
      vals := vals + (valueList[0] + ", ");
    } else {
      for i := 0 to |valueList|
        invariant ins == sqlInsert + Terminated(Numbered(key, i), ", ")
        invariant vals == sqlValues + Terminated(valueList[..i], ", ")
      {
        TerminatedStep(sqlInsert, Numbered(key, i), key + NatToString(i), ", ");
        TerminatedStep(sqlValues, valueList[..i], valueList[i], ", ");
        assert valueList[..i + 1] == valueList[..i] + [valueList[i]];
        ins := ins + (key + NatToString(i) + ", ");
        vals := vals + (valueList[i] + ", ");
      }
      assert valueList[..|valueList|] == valueList;
    }
  }

  /** Converts one line: splits it into groups, then converts them. */
  method InsertStatement(line: string, fileName: string) returns (sql: Option<string>)
    ensures sql == Insert(line, fileName)
  {
    var parts := Split(Slice(Strip(line), 1, -1), ")(");
    sql := InsertParts(parts, fileName);
  }

  /** Converts the groups one by one, then cuts the last `, ` off both lists. */
  method InsertParts(parts: seq<string>, fileName: string) returns (sql: Option<string>)
    ensures var groups := Tokenized(parts);
      sql == if Keyed(groups) then Some(Statement(fileName, groups)) else None
  {
    ghost var groups := Tokenized(parts);
    var sqlInsert := InsertHead;
    var sqlValues := ValuesHead(fileName);
    for g := 0 to |parts|
      invariant Keyed(groups[..g])
      invariant sqlInsert == InsertHead + Terminated(Columns(groups[..g]), ", ")
      invariant sqlValues == ValuesHead(fileName) + Terminated(Values(groups[..g]), ", ")
    {
      var valueList := Words(parts[g]);
      assert groups[g] == valueList;
      if |valueList| == 0 {
        return None;
      }
      GroupStep(InsertHead, ValuesHead(fileName), groups, g);
      sqlInsert, sqlValues := AppendGroup(sqlInsert, sqlValues, valueList);
    }
    assert groups[..|parts|] == groups;
    InsertCut(fileName, groups);
    sql := Some(sqlInsert[..|sqlInsert| - 2] + ") " + sqlValues[..|sqlValues| - 2] + ")");
  }

  /** One more keyed group extends both accumulated lists by its own pieces. */
  lemma GroupStep(insertHead: string, valuesHead: string, groups: seq<seq<string>>, g: int)
    requires 0 <= g < |groups| && Keyed(groups[..g]) && |groups[g]| >= 1
    ensures Keyed(groups[..g + 1])
    ensures insertHead + Terminated(Columns(groups[..g]), ", ") + Terminated(GroupColumns(groups[g]), ", ")
      == insertHead + Terminated(Columns(groups[..g + 1]), ", ")
    ensures valuesHead + Terminated(Values(groups[..g]), ", ") + Terminated(groups[g][1..], ", ")
      == valuesHead + Terminated(Values(groups[..g + 1]), ", ")
  {
    assert groups[..g + 1][..g] == groups[..g];
    TerminatedExtend(insertHead, Columns(groups[..g]), GroupColumns(groups[g]), ", ");
    TerminatedExtend(valuesHead, Values(groups[..g]), groups[g][1..], ", ");
  }

  /** Cutting the trailing `, ` off both accumulated lists gives the joins. */
  lemma InsertCut(fileName: string, groups: seq<seq<string>>)
    requires Keyed(groups)
    ensures var ins := InsertHead + Terminated(Columns(groups), ", ");
      var vals := ValuesHead(fileName) + Terminated(Values(groups), ", ");
      |ins| >= 2 && |vals| >= 2
      && ins[..|ins| - 2] + ") " + vals[..|vals| - 2] + ")" == Statement(fileName, groups)
  {
    CutTerminated(InsertInto, "track", Columns(groups), ", ");
    CutTerminated(ValuesOpen, "'" + fileName + "'", Values(groups), ", ");
  }
}
