/**
 * The tables the Build model reads and writes, held in memory: the build
 * table keyed by id with the auto-increment counter, buildtesttime,
 * build2test (per build, joined with the test names), builderror, the
 * subproject names, the three difference tables, and the comments handed
 * to the pull-request service.
 */
module Store {
  import opened BuildRow
  import opened History

  /** A comment handed to the pull-request service: project, pull request, message and link. */
  datatype Comment = Comment(projectid: int, pullRequest: string, message: string, url: string)

  class Database {
    var rows: map<int, Row>
    var nextId: int
    var testTimes: map<int, int>
    var tests: map<int, seq<TestRun>>
    var errors: seq<ErrorRow>
    var subprojectNames: map<int, string>
    var buildErrorDiffs: seq<CountDiff>
    var configureErrorDiffs: seq<ConfigureErrorDiff>
    var testDiffs: seq<CountDiff>
    var posted: seq<Comment>
    /** The server's own address, the start of every link in a comment. */
    var serverUri: string

    /**
     * Id 0 never names a row (the source reads 0 as "no build"),
     * auto-increment ids are above every id in use, and uuids are unique
     * (the column's unique key).
     */
    ghost predicate Valid()
      reads this`rows, this`nextId
    {
      TableValid(rows, nextId)
    }

    constructor(serverUri: string)
      ensures Valid() && this.serverUri == serverUri
      ensures rows == map[] && nextId == 1 && testTimes == map[] && tests == map[] && errors == []
      ensures subprojectNames == map[] && buildErrorDiffs == [] && configureErrorDiffs == [] && testDiffs == []
      ensures posted == []
    {
      rows := map[];
      nextId := 1;
      testTimes := map[];
      tests := map[];
      errors := [];
      subprojectNames := map[];
      buildErrorDiffs := [];
      configureErrorDiffs := [];
      testDiffs := [];
      posted := [];
      this.serverUri := serverUri;
    }
  }

  /** Valid on the table's values. */
  ghost predicate TableValid(rows: map<int, Row>, nextId: int) {
    && 0 !in rows
    && nextId >= 1
    && (forall k :: k in rows ==> k < nextId)
    && UniqueUuids(rows)
  }

  /** The name of build b's subproject (subproject2build joined with subproject), if it has one. */
  function NameIn(rows: map<int, Row>, names: map<int, string>, b: int): (r: Option<string>)
    ensures r.Some? <==> b in rows && rows[b].subprojectid.Some? && rows[b].subprojectid.value in names
    ensures r.Some? ==> r.value == names[rows[b].subprojectid.value]
  {
    if b in rows && rows[b].subprojectid.Some? && rows[b].subprojectid.value in names
    then Some(names[rows[b].subprojectid.value])
    else None
  }
}
