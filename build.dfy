/**
 * The Build object: its own fields, and the operations that read and write
 * the build table through it.
 */
module BuildModel {
  import opened Pick
  import opened BuildRow
  import opened History
  import opened Store

  /** The pull-request comment posted when tests fail. */
  const FailingTestsMessage: string := "This build experienced failing tests"

  /** The pull-request comment posted when a build has errors. */
  const ErrorsMessage: string := "This build experienced errors"

  /** The fields FillFromId loads, with the Filled flag. */
  datatype Header = Header(name: string, stamp: string, buildtype: string, starttime: int, endtime: int,
                           siteid: int, projectid: int, parentid: int, subprojectid: int, filled: bool)

  /**
   * The header after FillFromId(b) on an object with id `self`: the row's
   * fields (a missing row reads as empty strings and zeros), the parent set
   * through SetParentId, and the subproject id only when the build has a
   * known, non-zero subproject. The stamp's type guess is overwritten by the
   * stored type at once, so it leaves no trace.
   */
  function FillHeader(h: Header, rows: map<int, Row>, names: map<int, string>, b: int, self: int): (h': Header)
    ensures h'.filled
    ensures b !in rows ==>
      && h'.name == "" && h'.stamp == "" && h'.buildtype == ""
      && h'.starttime == 0 && h'.endtime == 0 && h'.siteid == 0 && h'.projectid == 0
      && h'.parentid == ParentAfterSet(h.parentid, 0, self) && h'.subprojectid == h.subprojectid
    ensures b in rows ==>
      && h'.name == rows[b].name && h'.stamp == rows[b].stamp && h'.buildtype == rows[b].buildtype
      && h'.starttime == rows[b].starttime && h'.endtime == rows[b].endtime
      && h'.siteid == rows[b].siteid && h'.projectid == rows[b].projectid
      && h'.parentid == ParentAfterSet(h.parentid, rows[b].parentid, self)
    ensures var known := b in rows && rows[b].subprojectid.Some? && rows[b].subprojectid.value in names;
      && (known && rows[b].subprojectid.value != 0 ==> h'.subprojectid == rows[b].subprojectid.value)
      && (!known || rows[b].subprojectid.value == 0 ==> h'.subprojectid == h.subprojectid)
  {
    if b in rows then
      var r := rows[b];
      var sub := if r.subprojectid.Some? && r.subprojectid.value in names && r.subprojectid.value != 0
                 then r.subprojectid.value else h.subprojectid;
      Header(r.name, r.stamp, r.buildtype, r.starttime, r.endtime, r.siteid, r.projectid,
             ParentAfterSet(h.parentid, r.parentid, self), sub, true)
    else Header("", "", "", 0, 0, 0, 0, ParentAfterSet(h.parentid, 0, self), h.subprojectid, true)
  }

  /** What parent creation needs to know of the build: its id and the fields a parent row copies or matches. */
  datatype Identity = Identity(id: int, siteid: int, projectid: int, name: string, stamp: string, buildtype: string,
                               starttime: int, endtime: int, submittime: int)

  /** The outcome of CreateParentBuild: whether this call made the parent, with the rows, next id and ParentId after it. */
  datatype Creation = Creation(created: bool, rows: map<int, Row>, nextId: int, parentId: int)

  /** How the insert of a new build ended: stored, its uuid's existing build adopted instead, or refused. */
  datatype Insertion = Inserted | Adopted | Refused

  /** What ComputeTestTiming reports: refused (no id or project), no previous build, or done. */
  datatype TimingOutcome = NotSet | NoPrevious | Computed

  /**
   * What CreateParentBuild does, from rows `rows`, next auto-increment id
   * `nextId` and ParentId `pid`, for build `who` carrying increment `u`: the first
   * standalone twin is promoted to parent; failing that, a taken parent
   * uuid is adopted and nothing is written (`created` false); failing that,
   * a parent row is inserted at `nextId`. A made parent then receives the
   * increment and the remaining standalone twins are re-parented to it.
   */
  ghost function ParentCreation(rows: map<int, Row>, nextId: int, pid: int, who: Identity, u: Increment, hash: string -> string, fuel: nat): Creation
  {
    var c := ParentPlaced(rows, nextId, pid, who, hash);
    if c.created then ParentMade(c.rows, c.nextId, c.parentId, who, u, fuel) else c
  }

  /**
   * The first half of ParentCreation: where the parent comes from. A
   * promoted twin or an inserted row comes back with `created` true; an
   * adopted uuid leaves the rows and next id alone and `created` false.
   */
  ghost function ParentPlaced(rows: map<int, Row>, nextId: int, pid: int, who: Identity, hash: string -> string): Creation
  {
    var twin := TwinLookup(rows, who.siteid, who.name, who.stamp, who.projectid);
    var uuid := GenerateUuid(hash, who.stamp, who.name, who.siteid, who.projectid, "");
    var existing := UuidLookup(rows, uuid);
    if twin != 0 then
      var p := ParentAfterSet(pid, twin, who.id);
      Creation(true, Promote(rows, p), nextId, p)
    else if existing != 0 then
      Creation(false, rows, nextId, ParentAfterSet(pid, existing, who.id))
    else
      var inserted := rows[nextId := NewParentRow(who.siteid, who.projectid, who.stamp, who.name, who.buildtype, who.starttime, who.endtime, who.submittime, uuid)];
      Creation(true, inserted, nextId + 1, if pid == 0 then ParentAfterSet(0, nextId, who.id) else pid)
  }

  /** The end of a made parent: parent p takes the increment, then the standalone twins become its children. */
  ghost function ParentMade(rows: map<int, Row>, nextId: int, p: int, who: Identity, u: Increment, fuel: nat): Creation {
    var e := UpdateChain(rows, p, u, who.id, p, fuel);
    Creation(true, Reparent(e.rows, e.parentId, who.siteid, who.name, who.stamp, who.projectid), nextId, e.parentId)
  }

  /**
   * The parent a new build is saved under: none outside a subproject; for a
   * subproject build the parent aggregate with its site, name and stamp,
   * and, when there is none, the one ParentCreation makes (with the
   * counts `u`, read as 0 when negative).
   */
  ghost function ParentChosen(rows: map<int, Row>, nextId: int, subproject: bool, who: Identity, u: Increment,
                              hash: string -> string, fuel: nat): Creation
  {
    var found := if subproject then ParentAfterSet(0, ParentLookup(rows, who.siteid, who.name, who.stamp), who.id) else 0;
    if !subproject || found != 0 then Creation(false, rows, nextId, found)
    else ParentCreation(rows, nextId, 0, who, u, hash, fuel)
  }

  /** How the insert of a build with uuid `uuid` and id `id` (0 for none) ends: its uuid taken, its id taken, or stored. */
  ghost function InsertOutcome(rows: map<int, Row>, uuid: string, id: int): Insertion {
    if UuidLookup(rows, uuid) != 0 then Adopted
    else if id != 0 && id in rows then Refused
    else Inserted
  }

  /**
   * A new row stored at `id`; unless this save made the parent (`made`),
   * the row's parent and the chain above it then receive the counts `u`.
   */
  ghost function RowInserted(rows: map<int, Row>, id: int, row: Row, made: bool, u: Increment, fuel: nat): Effect {
    var r := rows[id := row];
    if made then Effect(r, row.parentid) else UpdateChain(r, row.parentid, u, id, row.parentid, fuel)
  }

  /**
   * The adoption of `existing`, the build holding the uuid, with ParentId
   * `pid`: it and its chain receive the counts `u`; a subproject build left
   * without a parent then gets one from ParentCreation (counts `u0`), and a
   * parent somebody else made meanwhile receives the counts as well.
   */
  ghost function Adoption(rows: map<int, Row>, nextId: int, existing: int, pid: int, subproject: bool, who: Identity,
                          u: Increment, u0: Increment, hash: string -> string, fuel: nat): Creation
  {
    var e := UpdateChain(rows, existing, u, existing, pid, fuel);
    if subproject && e.parentId < 1 then
      var c := ParentCreation(e.rows, nextId, e.parentId, who, u0, hash, fuel);
      if c.created then c
      else
        var f := UpdateChain(c.rows, c.parentId, u, existing, c.parentId, fuel);
        Creation(false, f.rows, c.nextId, f.parentId)
    else Creation(false, e.rows, nextId, e.parentId)
  }

  /** The table, next id, ParentId and Id a new build's save leaves before its errors are written. */
  datatype Saved = Saved(outcome: Insertion, rows: map<int, Row>, nextId: int, parentId: int, id: int)

  /**
   * What a new build brings to its save: whether it belongs to a subproject,
   * its identity (id 0 for none), the row it is inserted with (uuid set,
   * parentid still 0), and the increments it passes on, as counted and with
   * negative counts read as 0.
   */
  datatype Submission = Submission(subproject: bool, who: Identity, row: Row, u: Increment, u0: Increment)
  {
    /** The same submission under build type `t`. */
    function Typed(t: string): (s: Submission)
      ensures s.who.buildtype == t && s.row.buildtype == t
    {
      this.(who := who.(buildtype := t), row := row.(buildtype := t))
    }
  }

  /** The save of a build not yet stored: the parent is chosen, then the row is inserted. */
  ghost function SavedNew(rows: map<int, Row>, nextId: int, sub: Submission, hash: string -> string, fuel: nat): Saved
  {
    Inserting(ParentChosen(rows, nextId, sub.subproject, sub.who, sub.u0, hash, fuel), sub, hash, fuel)
  }

  /**
   * The insert of submission `sub` once its parent is chosen (`c`): stored
   * at its id or the next id, the build holding its uuid adopted instead,
   * or refused (its id taken by the parent just made).
   */
  ghost function Inserting(c: Creation, sub: Submission, hash: string -> string, fuel: nat): Saved
  {
    var who := sub.who;
    match InsertOutcome(c.rows, sub.row.uuid, who.id)
    case Refused => Saved(Refused, c.rows, c.nextId, c.parentId, who.id)
    case Adopted =>
      var existing := UuidLookup(c.rows, sub.row.uuid);
      var a := Adoption(c.rows, c.nextId, existing, c.parentId, sub.subproject, who.(id := existing), sub.u, sub.u0, hash, fuel);
      Saved(Adopted, a.rows, a.nextId, a.parentId, existing)
    case Inserted =>
      var k := if who.id != 0 then who.id else c.nextId;
      var s := RowInserted(c.rows, k, sub.row.(parentid := c.parentId), c.created, sub.u, fuel);
      Saved(Inserted, s.rows, if k < c.nextId then c.nextId else k + 1, s.parentId, k)
  }

  /** The table after the error comment for target `t`: marked notified when a comment is due. */
  function AfterPost(rows: map<int, Row>, t: int, due: bool): (rows': map<int, Row>)
    ensures rows'.Keys == rows.Keys
    ensures due ==> !Sends(rows', t)
    ensures forall k :: k in rows && k != t ==> rows'[k] == rows[k]
  {
    if due then MarkNotified(rows, t) else rows
  }

  /**
   * The subproject name a build keeps after a comment attempt: a stored
   * build that sends a comment without knowing its subproject name looks
   * it up and keeps it when found; otherwise the name stays.
   */
  function NameAfterPost(name: string, id: int, sends: bool, found: Option<string>): (name': string)
    ensures name' != name ==> sends && id != 0 && !Truthy(name) && found == Some(name')
    ensures sends && id != 0 && !Truthy(name) && found.Some? ==> name' == found.value
  {
    if sends && id != 0 && !Truthy(name) && found.Some? then found.value else name
  }

  /**
   * Creating a parent only adds rows: every row stays with its uuid, the
   * uuids stay unique, and the next id stays above every id. An adopted
   * parent leaves the rows and the next id as they were.
   */
  lemma CreationKeepsRows(rows: map<int, Row>, nextId: int, pid: int, who: Identity, u: Increment, hash: string -> string, fuel: nat)
    requires 0 !in rows && nextId >= 1 && (forall k :: k in rows ==> k < nextId) && UniqueUuids(rows)
    ensures var c := ParentCreation(rows, nextId, pid, who, u, hash, fuel);
      && KeepsRows(rows, nextId, c)
      && (!c.created ==> c.rows == rows && c.nextId == nextId)
  {
    var uuid := GenerateUuid(hash, who.stamp, who.name, who.siteid, who.projectid, "");
    if TwinLookup(rows, who.siteid, who.name, who.stamp, who.projectid) != 0 {
      PromotionKeepsRows(rows, nextId, pid, who, u, hash, fuel);
    } else if UuidLookup(rows, uuid) == 0 {
      InsertionKeepsRows(rows, nextId, pid, who, u, hash, fuel);
    }
  }

  /** Rows are only added, each keeps its uuid, uuids stay unique and ids stay below the next id. */
  ghost predicate KeepsRows(rows: map<int, Row>, nextId: int, c: Creation) {
    && rows.Keys <= c.rows.Keys && 0 !in c.rows && c.nextId >= nextId
    && (forall k :: k in c.rows ==> k < c.nextId)
    && (forall k :: k in rows ==> c.rows[k].uuid == rows[k].uuid)
    && UniqueUuids(c.rows)
  }

  lemma PromotionKeepsRows(rows: map<int, Row>, nextId: int, pid: int, who: Identity, u: Increment, hash: string -> string, fuel: nat)
    requires 0 !in rows && nextId >= 1 && (forall k :: k in rows ==> k < nextId) && UniqueUuids(rows)
    requires TwinLookup(rows, who.siteid, who.name, who.stamp, who.projectid) != 0
    ensures KeepsRows(rows, nextId, ParentCreation(rows, nextId, pid, who, u, hash, fuel))
  {
    var p := ParentAfterSet(pid, TwinLookup(rows, who.siteid, who.name, who.stamp, who.projectid), who.id);
    ChainAndReparentKeepRows(Promote(rows, p), p, who, u, fuel);
  }

  lemma InsertionKeepsRows(rows: map<int, Row>, nextId: int, pid: int, who: Identity, u: Increment, hash: string -> string, fuel: nat)
    requires 0 !in rows && nextId >= 1 && (forall k :: k in rows ==> k < nextId) && UniqueUuids(rows)
    requires TwinLookup(rows, who.siteid, who.name, who.stamp, who.projectid) == 0
    requires UuidLookup(rows, GenerateUuid(hash, who.stamp, who.name, who.siteid, who.projectid, "")) == 0
    ensures KeepsRows(rows, nextId, ParentCreation(rows, nextId, pid, who, u, hash, fuel))
  {
    var uuid := GenerateUuid(hash, who.stamp, who.name, who.siteid, who.projectid, "");
    var p := if pid == 0 then ParentAfterSet(0, nextId, who.id) else pid;
    var inserted := rows[nextId := NewParentRow(who.siteid, who.projectid, who.stamp, who.name, who.buildtype, who.starttime, who.endtime, who.submittime, uuid)];
    InsertedParentKeepsRows(rows, nextId, inserted, p, who, u, fuel);
  }

  /** The new parent row, tallied and given its children, leaves the other rows and their uuids in place. */
  lemma InsertedParentKeepsRows(rows: map<int, Row>, nextId: int, inserted: map<int, Row>, p: int, who: Identity, u: Increment, fuel: nat)
    requires 0 !in rows && nextId >= 1 && (forall k :: k in rows ==> k < nextId) && UniqueUuids(rows)
    requires nextId !in rows && inserted.Keys == rows.Keys + {nextId} && UniqueUuids(inserted)
    requires forall k :: k in rows ==> inserted[k] == rows[k]
    ensures var e := UpdateChain(inserted, p, u, who.id, p, fuel);
      KeepsRows(rows, nextId, Creation(true, Reparent(e.rows, e.parentId, who.siteid, who.name, who.stamp, who.projectid), nextId + 1, e.parentId))
  {
    ChainAndReparentKeepRows(inserted, p, who, u, fuel);
  }

  /** The tally and re-parenting after a parent is made keep every row and its uuid. */
  lemma ChainAndReparentKeepRows(rows: map<int, Row>, p: int, who: Identity, u: Increment, fuel: nat)
    requires UniqueUuids(rows)
    ensures var e := UpdateChain(rows, p, u, who.id, p, fuel);
      var rows' := Reparent(e.rows, e.parentId, who.siteid, who.name, who.stamp, who.projectid);
      rows'.Keys == rows.Keys && UniqueUuids(rows') && forall k :: k in rows ==> rows'[k].uuid == rows[k].uuid
  {
    ChainKeepsUuids(rows, p, u, who.id, p, fuel);
  }

  /** The build2test table with build id's rows replaced by `rows`, when it has any. */
  function Written(tests: map<int, seq<TestRun>>, id: int, rows: seq<TestRun>): (tests': map<int, seq<TestRun>>)
    ensures tests'.Keys == tests.Keys
    ensures forall k :: k in tests && k != id ==> tests'[k] == tests[k]
  {
    if id in tests then tests[id := rows] else tests
  }

  /**
   * One step of ComputeTestTiming's loop: writing test i's statistics `r`
   * into the table as written after the first i tests gives the table as
   * written after i + 1 tests, and the tally grows by r's flag.
   */
  lemma WrittenStep(tests0: map<int, seq<TestRun>>, id: int, before: map<int, seq<TestRun>>, after: map<int, seq<TestRun>>,
                    cur: seq<TestRun>, i: nat, prevTests: seq<TestRun>, cfg: TimingConfig, sqrt: real -> real, r: Timing)
    requires i < |cur|
    requires before == Written(tests0, id, TimingWrites(cur[..i], cur, prevTests, cfg, sqrt))
    requires r == TimingStep(cur[i], PreviousFor(prevTests, cur[i].name), cfg, sqrt)
    requires after == if id in before then before[id := SetTiming(before[id], cur[i].testid, r)] else before
    ensures after == Written(tests0, id, TimingWrites(cur[..i + 1], cur, prevTests, cfg, sqrt))
    ensures Flagged(cur[..i + 1], prevTests, cfg, sqrt) == Flagged(cur[..i], prevTests, cfg, sqrt) + (if r.status >= cfg.maxStatus then 1 else 0)
  {
    StepDone(cur, i, cur, prevTests, cfg, sqrt);
  }

  /** The same step for a first build: test i's mean is its own time, with deviation and status 0. */
  lemma FirstWrittenStep(tests0: map<int, seq<TestRun>>, id: int, before: map<int, seq<TestRun>>, after: map<int, seq<TestRun>>,
                         cur: seq<TestRun>, i: nat, cfg: TimingConfig, sqrt: real -> real)
    requires i < |cur|
    requires before == Written(tests0, id, TimingWrites(cur[..i], cur, [], cfg, sqrt))
    requires after == if id in before then before[id := SetTiming(before[id], cur[i].testid, Timing(cur[i].time, 0.0, 0))] else before
    ensures after == Written(tests0, id, TimingWrites(cur[..i + 1], cur, [], cfg, sqrt))
    ensures Flagged(cur[..i + 1], [], cfg, sqrt) == Flagged(cur[..i], [], cfg, sqrt) + (if 0 >= cfg.maxStatus then 1 else 0)
  {
    FirstStepDone(cur, i, cur, cfg, sqrt);
  }

  class Build {
    var Id: int
    var SiteId: int
    var ProjectId: int
    var ParentId: int
    var Uuid: string
    var Stamp: string
    var Name: string
    var Type: string
    var StartTime: int
    var EndTime: int
    var SubmitTime: int
    var Command: string
    var Log: string
    var SubProjectId: int
    var SubProjectName: string
    var InsertErrors: bool
    var Errors: seq<ErrorRow>
    var PullRequest: Option<string>
    var Filled: bool

    /** A new object: nothing set, errors are inserted, not yet filled from the table. */
    constructor()
      ensures Id == 0 && SiteId == 0 && ProjectId == 0 && ParentId == 0 && Uuid == ""
      ensures Stamp == "" && Name == "" && Type == "" && StartTime == 0 && EndTime == 0 && SubmitTime == 0
      ensures Command == "" && Log == "" && SubProjectId == 0 && SubProjectName == ""
      ensures InsertErrors && Errors == [] && PullRequest == None && !Filled
    {
      Id := 0;
      SiteId := 0;
      ProjectId := 0;
      ParentId := 0;
      Uuid := "";
      Stamp := "";
      Name := "";
      Type := "";
      StartTime := 0;
      EndTime := 0;
      SubmitTime := 0;
      Command := "";
      Log := "";
      SubProjectId := 0;
      SubProjectName := "";
      InsertErrors := true;
      Errors := [];
      PullRequest := None;
      Filled := false;
    }

    /** The row an insert of this build writes, with the given counts and parent. */
    function NewRow(nErrors: int, nWarnings: int, parentId: int): Row
      reads this`SiteId, this`ProjectId, this`Stamp, this`Name, this`Type, this`StartTime, this`EndTime, this`SubmitTime,
            this`Command, this`Log, this`Uuid, this`SubProjectId
    {
      NewBuildRow(SiteId, ProjectId, Stamp, Name, Type, StartTime, EndTime, SubmitTime, Command, Log,
                  nErrors, nWarnings, parentId, Uuid, SubProjectId)
    }

    /** The row a new build is inserted with (its parentid still 0), under the uuid Save computes for it. */
    function Fresh(nErrors: int, nWarnings: int, hash: string -> string): (row: Row)
      reads this`SiteId, this`ProjectId, this`Stamp, this`Name, this`Type, this`StartTime, this`EndTime, this`SubmitTime,
            this`Command, this`Log, this`SubProjectId, this`SubProjectName
      ensures row.uuid == GenerateUuid(hash, Stamp, Name, SiteId, ProjectId, SubProjectName)
      ensures row.parentid == 0 && row.builderrors == nErrors && row.buildwarnings == nWarnings
    {
      NewBuildRow(SiteId, ProjectId, Stamp, Name, Type, StartTime, EndTime, SubmitTime, Command, Log,
                  nErrors, nWarnings, 0, GenerateUuid(hash, Stamp, Name, SiteId, ProjectId, SubProjectName), SubProjectId)
    }

    /** This build as a submission, with counts nErrors and nWarnings. */
    function Submitted(nErrors: int, nWarnings: int, hash: string -> string): Submission
      reads this`SubProjectName, this`Id, this`SiteId, this`ProjectId, this`Name, this`Stamp, this`Type, this`StartTime,
            this`EndTime, this`SubmitTime, this`Command, this`Log, this`SubProjectId, this`InsertErrors
    {
      Submission(Truthy(SubProjectName), Who(), Fresh(nErrors, nWarnings, hash), Inc(nErrors, nWarnings), Inc(Clamp0(nErrors), Clamp0(nWarnings)))
    }

    /** The build type Save inserts with: the one given, or, when empty, the one the stamp names. */
    function GuessedType(stampType: string -> string): string
      reads this`Type, this`Stamp
    {
      if |Type| == 0 then stampType(Stamp) else Type
    }

    /** The build as parent creation sees it. */
    function Who(): Identity
      reads this`Id, this`SiteId, this`ProjectId, this`Name, this`Stamp, this`Type, this`StartTime, this`EndTime, this`SubmitTime
    {
      Identity(Id, SiteId, ProjectId, Name, Stamp, Type, StartTime, EndTime, SubmitTime)
    }

    /** The fields FillFromId loads. */
    function Hdr(): Header
      reads this`Name, this`Stamp, this`Type, this`StartTime, this`EndTime, this`SiteId, this`ProjectId,
            this`ParentId, this`SubProjectId, this`Filled
    {
      Header(Name, Stamp, Type, StartTime, EndTime, SiteId, ProjectId, ParentId, SubProjectId, Filled)
    }

    /**
     * FillFromId: load name, stamp, type, times, site, project and parent of
     * build b (once: a filled object is left as it is), and its subproject
     * when it has one.
     */
    method FillFromId(db: Database, b: int)
      modifies this`Name, this`Stamp, this`Type, this`StartTime, this`EndTime, this`SiteId, this`ProjectId,
               this`ParentId, this`SubProjectId, this`Filled
      ensures Hdr() == if old(Filled) then old(Hdr()) else FillHeader(old(Hdr()), db.rows, db.subprojectNames, b, Id)
    {
      if Filled {
        // Already filled.
        return;
      }
      var r := if b in db.rows then Some(db.rows[b]) else None;
      LoadRow(r);
      var sub := if r.Some? && r.value.subprojectid.Some? && r.value.subprojectid.value in db.subprojectNames
                 then r.value.subprojectid.value else 0;
      if sub != 0 {
        SubProjectId := sub;
      }
      Filled := true;
    }

    /** The columns FillFromId copies from a row; a missing row reads as NULLs. */
    method LoadRow(r: Option<Row>)
      modifies this`Name, this`Stamp, this`Type, this`StartTime, this`EndTime, this`SiteId, this`ProjectId, this`ParentId
      ensures r.Some? ==>
        && Name == r.value.name && Stamp == r.value.stamp && Type == r.value.buildtype
        && StartTime == r.value.starttime && EndTime == r.value.endtime
        && SiteId == r.value.siteid && ProjectId == r.value.projectid
        && ParentId == ParentAfterSet(old(ParentId), r.value.parentid, Id)
      ensures r.None? ==>
        && Name == "" && Stamp == "" && Type == "" && StartTime == 0 && EndTime == 0 && SiteId == 0 && ProjectId == 0
        && ParentId == ParentAfterSet(old(ParentId), 0, Id)
    {
      if r.Some? {
        Name, Stamp, Type := r.value.name, r.value.stamp, r.value.buildtype;
        StartTime, EndTime := r.value.starttime, r.value.endtime;
        SiteId, ProjectId := r.value.siteid, r.value.projectid;
        SetParentId(r.value.parentid);
      } else {
        Name, Stamp, Type := "", "", "";
        StartTime, EndTime := 0, 0;
        SiteId, ProjectId := 0, 0;
        SetParentId(0);
      }
    }

    /** The criteria GetRelatedBuildId builds from this object. */
    function Crit(dir: Direction, relatedParent: int): Criteria
      reads this`StartTime, this`SubProjectId, this`ParentId, this`SiteId, this`Type, this`Name, this`ProjectId
    {
      Criteria(dir, StartTime, SubProjectId, ParentId == -1, relatedParent, SiteId, Type, Name, ProjectId)
    }

    /**
     * GetRelatedBuildId: the first build in the direction's order among the
     * builds related to this one, or 0.
     */
    method GetRelatedBuildId(db: Database, dir: Direction, relatedParent: int) returns (r: int)
      ensures r == RelatedBuildId(db.rows, Crit(dir, relatedParent))
    {
      var c := Crit(dir, relatedParent);
      var s := set k | k in db.rows && Related(db.rows[k], c);
      if exists k :: k in s {
        var key := RankKey(db.rows, dir);
        LeastExists(s, key);
        r :| IsLeast(s, key, r);
        LeastUnique(s, key, r);
      } else {
        r := 0;
      }
    }

    /**
     * GetPreviousBuildId / GetNextBuildId / GetCurrentBuildId: 0 without an
     * id; otherwise fill the object from its own row and take the related
     * build in that direction.
     */
    method GetBuildIdIn(db: Database, dir: Direction, relatedParent: int) returns (r: int)
      modifies this`Name, this`Stamp, this`Type, this`StartTime, this`EndTime, this`SiteId, this`ProjectId,
               this`ParentId, this`SubProjectId, this`Filled
      ensures Id == 0 ==> r == 0 && Hdr() == old(Hdr())
      ensures Id != 0 ==>
        && Hdr() == (if old(Filled) then old(Hdr()) else FillHeader(old(Hdr()), db.rows, db.subprojectNames, Id, Id))
        && r == RelatedBuildId(db.rows, Crit(dir, relatedParent))
      ensures r != 0 ==> r in db.rows && Related(db.rows[r], Crit(dir, relatedParent))
    {
      if Id == 0 {
        return 0;
      }
      FillFromId(db, Id);
      r := GetRelatedBuildId(db, dir, relatedParent);
    }

    method GetPreviousBuildId(db: Database, relatedParent: int) returns (r: int)
      modifies this`Name, this`Stamp, this`Type, this`StartTime, this`EndTime, this`SiteId, this`ProjectId,
               this`ParentId, this`SubProjectId, this`Filled
      ensures Id == 0 ==> r == 0 && Hdr() == old(Hdr())
      ensures Id != 0 ==>
        && Hdr() == (if old(Filled) then old(Hdr()) else FillHeader(old(Hdr()), db.rows, db.subprojectNames, Id, Id))
        && r == RelatedBuildId(db.rows, Crit(Previous, relatedParent))
      ensures r != 0 ==> r in db.rows && db.rows[r].starttime < StartTime
    {
      r := GetBuildIdIn(db, Previous, relatedParent);
    }

    method GetNextBuildId(db: Database, relatedParent: int) returns (r: int)
      modifies this`Name, this`Stamp, this`Type, this`StartTime, this`EndTime, this`SiteId, this`ProjectId,
               this`ParentId, this`SubProjectId, this`Filled
      ensures Id == 0 ==> r == 0 && Hdr() == old(Hdr())
      ensures Id != 0 ==>
        && Hdr() == (if old(Filled) then old(Hdr()) else FillHeader(old(Hdr()), db.rows, db.subprojectNames, Id, Id))
        && r == RelatedBuildId(db.rows, Crit(Next, relatedParent))
      ensures r != 0 ==> r in db.rows && db.rows[r].starttime > StartTime
    {
      r := GetBuildIdIn(db, Next, relatedParent);
    }

    method GetCurrentBuildId(db: Database, relatedParent: int) returns (r: int)
      modifies this`Name, this`Stamp, this`Type, this`StartTime, this`EndTime, this`SiteId, this`ProjectId,
               this`ParentId, this`SubProjectId, this`Filled
      ensures Id == 0 ==> r == 0 && Hdr() == old(Hdr())
      ensures Id != 0 ==>
        && Hdr() == (if old(Filled) then old(Hdr()) else FillHeader(old(Hdr()), db.rows, db.subprojectNames, Id, Id))
        && r == RelatedBuildId(db.rows, Crit(Current, relatedParent))
    {
      r := GetBuildIdIn(db, Current, relatedParent);
    }

    /**
     * GetResolvedBuildErrors: the previous build's errors of the given type
     * whose checksum none of this build's errors of that type has.
     */
    method GetResolvedBuildErrors(db: Database, errtype: int) returns (resolved: seq<ErrorRow>)
      modifies this`Name, this`Stamp, this`Type, this`StartTime, this`EndTime, this`SiteId, this`ProjectId,
               this`ParentId, this`SubProjectId, this`Filled
      ensures Id == 0 ==> Hdr() == old(Hdr())
      ensures Id != 0 ==> Hdr() == if old(Filled) then old(Hdr()) else FillHeader(old(Hdr()), db.rows, db.subprojectNames, Id, Id)
      ensures var prev := if Id == 0 then 0 else RelatedBuildId(db.rows, Crit(Previous, 0));
        forall e :: e in resolved <==>
          && e in db.errors && e.buildid == prev && e.errtype == errtype
          && forall f :: f in db.errors && f.buildid == Id && f.errtype == errtype ==> f.crc32 != e.crc32
    {
      var prev := GetPreviousBuildId(db, 0);
      resolved := ResolvedErrors(db.errors, prev, Id, errtype);
    }

    /**
     * GetErrorDifferences: refuse without an id; otherwise walk the rows of
     * the build's join with its three difference tables, letting each row
     * overwrite the keys it assigns, and give every key nothing or NULL
     * reached the value 0.
     */
    method GetErrorDifferences(db: Database) returns (r: Option<map<DiffKey, int>>)
      ensures Id == 0 <==> r.None?
      ensures r.Some? ==>
        var rows := DiffJoin(Id in db.rows, db.buildErrorDiffs, db.configureErrorDiffs, db.testDiffs, Id);
        forall k :: k in r.value && r.value[k] == DiffValue(rows, k)
    {
      if Id == 0 {
        return None;
      }
      var rows := DiffJoin(Id in db.rows, db.buildErrorDiffs, db.configureErrorDiffs, db.testDiffs, Id);
      var diff := LastValues(rows);
      var summary := WithDefaults(rows, diff);
      r := Some(summary);
    }

    /** The fetch loop: after it, each key holds the value the last row assigning it gave. */
    static method LastValues(rows: seq<DiffJoinRow>) returns (diff: map<DiffKey, Option<int>>)
      ensures forall k :: k in diff <==> LastAssigned(rows, k).Some?
      ensures forall k :: k in diff ==> Some(diff[k]) == LastAssigned(rows, k)
    {
      diff := map[];
      var i := 0;
      while i < |rows|
        invariant 0 <= i <= |rows|
        invariant forall k :: k in diff <==> LastAssigned(rows[..i], k).Some?
        invariant forall k :: k in diff ==> Some(diff[k]) == LastAssigned(rows[..i], k)
      {
        diff := ApplyDiffRow(diff, rows[i]);
        assert rows[..i + 1] == rows[..i] + [rows[i]];
        forall k
          ensures LastAssigned(rows[..i + 1], k) == if AssignedBy(rows[i], k).Some? then AssignedBy(rows[i], k) else LastAssigned(rows[..i], k)
        {
          LastRowWins(rows[..i], rows[i], k);
        }
        i := i + 1;
      }
      assert rows[..i] == rows;
    }

    /** The defaults loop: every one of the twelve keys unset or NULL becomes 0. */
    static method WithDefaults(rows: seq<DiffJoinRow>, diff: map<DiffKey, Option<int>>) returns (summary: map<DiffKey, int>)
      requires forall k :: k in diff <==> LastAssigned(rows, k).Some?
      requires forall k :: k in diff ==> Some(diff[k]) == LastAssigned(rows, k)
      ensures forall k :: k in summary && summary[k] == DiffValue(rows, k)
    {
      summary := map[];
      for j := 0 to |AllKeys|
        invariant forall k :: k in summary <==> k in AllKeys[..j]
        invariant forall k :: k in summary ==> summary[k] == DiffValue(rows, k)
      {
        var k := AllKeys[j];
        if k in diff && diff[k].Some? {
          summary := summary[k := diff[k].value];
        } else {
          summary := summary[k := 0];
        }
        assert AllKeys[..j + 1] == AllKeys[..j] + [k];
      }
      forall k ensures k in summary {
        AllKeysComplete(k);
      }
    }

    /** One row of the join: error or warning keys by the build type, likewise configure, and the test keys by type. */
    static method ApplyDiffRow(diff: map<DiffKey, Option<int>>, row: DiffJoinRow) returns (diff': map<DiffKey, Option<int>>)
      ensures forall k :: k in diff' <==> k in diff || AssignedBy(row, k).Some?
      ensures forall k :: k in diff' ==> diff'[k] == if AssignedBy(row, k).Some? then AssignedBy(row, k).value else diff[k]
    {
      diff' := diff;
      if LooseEq(row.builderrortype, 0) {
        diff' := diff'[BuildErrorsPositive := row.builderrorspositive][BuildErrorsNegative := row.builderrorsnegative];
      } else {
        diff' := diff'[BuildWarningsPositive := row.builderrorspositive][BuildWarningsNegative := row.builderrorsnegative];
      }
      if LooseEq(row.configureerrortype, 0) {
        diff' := diff'[ConfigureErrors := row.configureerrors];
      } else {
        diff' := diff'[ConfigureWarnings := row.configureerrors];
      }
      if LooseEq(row.testerrortype, 2) {
        diff' := diff'[TestPassedPositive := row.testerrorspositive][TestPassedNegative := row.testerrorsnegative];
      } else if LooseEq(row.testerrortype, 1) {
        diff' := diff'[TestFailedPositive := row.testerrorspositive][TestFailedNegative := row.testerrorsnegative];
      } else if LooseEq(row.testerrortype, 0) {
        diff' := diff'[TestNotRunPositive := row.testerrorspositive][TestNotRunNegative := row.testerrorsnegative];
      }
    }

    /**
     * ComputeTestTiming: refuse without an id or a project; fill the object
     * and find the previous build, stopping when there is none. Each test of
     * this build then gets the mean, deviation and status of the timing step
     * against the previous build's test of the same name (a previous id below
     * 0 is the source's first-build branch: every test starts at its own
     * time), and the build row records how many tests reached the maximum
     * status. The statement about the result assumes the previous build is
     * not this build itself, which a freshly filled object guarantees.
     */
    method ComputeTestTiming(db: Database, cfg: TimingConfig, sqrt: real -> real) returns (outcome: TimingOutcome)
      requires db.Valid()
      modifies this`Name, this`Stamp, this`Type, this`StartTime, this`EndTime, this`SiteId, this`ProjectId,
               this`ParentId, this`SubProjectId, this`Filled, db`tests, db`rows
      ensures db.Valid()
      ensures Id == 0 || old(ProjectId) == 0 ==>
        outcome == NotSet && Hdr() == old(Hdr()) && db.tests == old(db.tests) && db.rows == old(db.rows)
      ensures Id != 0 && old(ProjectId) != 0 ==>
        Hdr() == if old(Filled) then old(Hdr()) else FillHeader(old(Hdr()), old(db.rows), db.subprojectNames, Id, Id)
      ensures Id != 0 && old(ProjectId) != 0 && RelatedBuildId(old(db.rows), Crit(Previous, 0)) == 0 ==>
        outcome == NoPrevious && db.tests == old(db.tests) && db.rows == old(db.rows)
      ensures var prev := RelatedBuildId(old(db.rows), Crit(Previous, 0));
        Id != 0 && old(ProjectId) != 0 && prev != 0 && (prev < 0 || prev != Id) ==>
          var cur := if Id in old(db.tests) then old(db.tests)[Id] else [];
          var prevTests := if prev > 0 && prev in old(db.tests) then old(db.tests)[prev] else [];
          && outcome == Computed
          && db.tests == (if Id in old(db.tests) then old(db.tests)[Id := TimingWrites(cur, cur, prevTests, cfg, sqrt)] else old(db.tests))
          && db.rows == if Id in old(db.rows)
                        then old(db.rows)[Id := old(db.rows)[Id].(testtimestatusfailed := Flagged(cur, prevTests, cfg, sqrt))]
                        else old(db.rows)
    {
      if Id == 0 || ProjectId == 0 {
        return NotSet;
      }
      var prev := GetPreviousBuildId(db, 0);
      if prev == 0 {
        return NoPrevious;
      }
      RecordTiming(db, prev, cfg, sqrt);
      outcome := Computed;
    }

    /**
     * The part of ComputeTestTiming after a previous build `prev` was found:
     * time the tests against it (or as a first build when its id is
     * negative) and record the tally on the build row.
     */
    method RecordTiming(db: Database, prev: int, cfg: TimingConfig, sqrt: real -> real)
      requires db.Valid()
      modifies db`tests, db`rows
      ensures db.Valid()
      ensures prev < 0 || prev != Id ==>
        var cur := if Id in old(db.tests) then old(db.tests)[Id] else [];
        var prevTests := if prev > 0 && prev in old(db.tests) then old(db.tests)[prev] else [];
        && db.tests == (if Id in old(db.tests) then old(db.tests)[Id := TimingWrites(cur, cur, prevTests, cfg, sqrt)] else old(db.tests))
        && db.rows == if Id in old(db.rows)
                      then old(db.rows)[Id := old(db.rows)[Id].(testtimestatusfailed := Flagged(cur, prevTests, cfg, sqrt))]
                      else old(db.rows)
    {
      var cur := if Id in db.tests then db.tests[Id] else [];
      var flagged := 0;
      if prev > 0 {
        flagged := TimeAgainst(db, prev, cur, cfg, sqrt);
      } else {
        flagged := TimeFirst(db, cur, cfg, sqrt);
      }
      if Id in db.rows {
        db.rows := db.rows[Id := db.rows[Id].(testtimestatusfailed := flagged)];
      }
    }

    /**
     * The loop of ComputeTestTiming over this build's tests `cur` against
     * the previous build `prev`: the name match comes from the previous
     * build's tests as listed before the loop, its statistics are read at
     * the time of the step.
     */
    method TimeAgainst(db: Database, prev: int, cur: seq<TestRun>, cfg: TimingConfig, sqrt: real -> real) returns (flagged: int)
      requires cur == if Id in db.tests then db.tests[Id] else []
      modifies db`tests
      ensures prev != Id ==>
        var prevTests := if prev in old(db.tests) then old(db.tests)[prev] else [];
        && flagged == Flagged(cur, prevTests, cfg, sqrt)
        && db.tests == if Id in old(db.tests) then old(db.tests)[Id := TimingWrites(cur, cur, prevTests, cfg, sqrt)] else old(db.tests)
    {
      var prevTests := if prev in db.tests then db.tests[prev] else [];
      flagged := 0;
      var i := 0;
      assert cur[..0] == [];
      assert Written(old(db.tests), Id, cur) == old(db.tests);
      while i < |cur|
        invariant 0 <= i <= |cur|
        invariant prev != Id ==> flagged == Flagged(cur[..i], prevTests, cfg, sqrt)
        invariant prev != Id ==> db.tests == Written(old(db.tests), Id, TimingWrites(cur[..i], cur, prevTests, cfg, sqrt))
      {
        var t := cur[i];
        ghost var before := db.tests;
        var previous := PreviousStats(db, prev, prevTests, t.name);
        var r := StepTiming(t, previous, cfg, sqrt);
        if Id in db.tests {
          db.tests := db.tests[Id := SetTiming(db.tests[Id], t.testid, r)];
        }
        if r.status >= cfg.maxStatus {
          flagged := flagged + 1;
        }
        if prev != Id {
          WrittenStep(old(db.tests), Id, before, db.tests, cur, i, prevTests, cfg, sqrt, r);
        }
        i := i + 1;
      }
      assert cur[..|cur|] == cur;
    }

    /**
     * The previous run of a test: the id of the first test of that name
     * among the previous build's tests listed before the loop, then that
     * id's statistics as the previous build holds them now (NULLs reading
     * as 0 when the row has gone).
     */
    static method PreviousStats(db: Database, prev: int, prevTests: seq<TestRun>, name: string) returns (previous: Option<TestRun>)
      ensures (if prev in db.tests then db.tests[prev] else []) == prevTests ==> previous == PreviousFor(prevTests, name)
    {
      var previd := PreviousTestId(prevTests, name);
      previous := None;
      if previd > 0 {
        var live := if prev in db.tests then db.tests[prev] else [];
        var stats := FirstMatch(live, IdKey(previd));
        previous := if stats.Some? then stats else Some(TestRun(previd, "", "", 0.0, 0.0, 0.0, 0));
      }
    }

    /** The first-build branch of ComputeTestTiming: each test's mean is its own time, deviation and status 0. */
    method TimeFirst(db: Database, cur: seq<TestRun>, cfg: TimingConfig, sqrt: real -> real) returns (flagged: int)
      requires cur == if Id in db.tests then db.tests[Id] else []
      modifies db`tests
      ensures flagged == Flagged(cur, [], cfg, sqrt)
      ensures db.tests == if Id in old(db.tests) then old(db.tests)[Id := TimingWrites(cur, cur, [], cfg, sqrt)] else old(db.tests)
    {
      flagged := 0;
      var std, status := 0.0, 0;
      var i := 0;
      assert cur[..0] == [];
      assert Written(old(db.tests), Id, cur) == old(db.tests);
      while i < |cur|
        invariant 0 <= i <= |cur|
        invariant flagged == Flagged(cur[..i], [], cfg, sqrt)
        invariant db.tests == Written(old(db.tests), Id, TimingWrites(cur[..i], cur, [], cfg, sqrt))
      {
        var mean := cur[i].time;
        ghost var before := db.tests;
        if Id in db.tests {
          db.tests := db.tests[Id := SetTiming(db.tests[Id], cur[i].testid, Timing(mean, std, status))];
        }
        if status >= cfg.maxStatus {
          flagged := flagged + 1;
        }
        FirstWrittenStep(old(db.tests), Id, before, db.tests, cur, i, cfg, sqrt);
        i := i + 1;
      }
      assert cur[..|cur|] == cur;
    }

    /** The id of the first previous test with the given name, or 0. */
    static method PreviousTestId(prevTests: seq<TestRun>, name: string) returns (previd: int)
      ensures var m := FirstMatch(prevTests, NameKey(name));
        previd == if m.Some? then m.value.testid else 0
    {
      previd := 0;
      var i := 0;
      while i < |prevTests|
        invariant 0 <= i <= |prevTests|
        invariant FirstMatch(prevTests, NameKey(name)) == FirstMatch(prevTests[i..], NameKey(name))
      {
        if prevTests[i].name == name {
          previd := prevTests[i].testid;
          break;
        }
        assert prevTests[i..][1..] == prevTests[i + 1..];
        i := i + 1;
      }
    }

    /** The statistics of one test, branch by branch as the source computes them. */
    static method StepTiming(t: TestRun, previous: Option<TestRun>, cfg: TimingConfig, sqrt: real -> real) returns (r: Timing)
      ensures r == TimingStep(t, previous, cfg, sqrt)
    {
      if previous.None? {
        // No previous match: a new series starts.
        return Timing(t.time, 0.0, 0);
      }
      var p := previous.value;
      if t.status != "passed" {
        // A run that did not pass carries the statistics over.
        return Timing(p.timemean, p.timestd, 0);
      }
      var std := p.timestd;
      if std < cfg.stdThreshold {
        std := cfg.stdThreshold;
      }
      var status := 0;
      if t.time > p.timemean + cfg.stdMultiplier * std {
        status := p.timestatus + 1;
      }
      if status > 0 && status <= cfg.maxStatus {
        // Inside the streak, mean and deviation stay frozen.
        r := Timing(p.timemean, std, status);
      } else {
        var mean := (1.0 - Weight) * p.timemean + Weight * t.time;
        r := Timing(mean, Deviation(std, t.time, mean, sqrt), status);
      }
    }

    /** A parent aggregate is marked by ParentId -1. */
    predicate IsParentBuild()
      reads this
    {
      ParentId == -1
    }

    /** SetParentId: refuses to make the build its own parent, stores anything else. */
    method SetParentId(p: int)
      modifies this`ParentId
      ensures ParentId == ParentAfterSet(old(ParentId), p, Id)
    {
      if p > 0 && p == Id {
        return;
      }
      ParentId := p;
    }

    /** LookupParentBuildId: the parent aggregate with this build's site, name and stamp, or 0. */
    method LookupParentBuildId(db: Database) returns (p: int)
      ensures p == ParentLookup(db.rows, SiteId, Name, Stamp)
    {
      if SiteId == 0 || !Truthy(Name) || !Truthy(Stamp) {
        return 0;
      }
      var s := set k | k in db.rows && ParentOf(db.rows[k], SiteId, Name, Stamp);
      if exists k :: k in s {
        LeastExists(s, ById);
        p :| IsLeast(s, ById, p);
        LeastUnique(s, ById, p);
      } else {
        p := 0;
      }
    }

    /** The first standalone build with this build's name, site, stamp and project, or 0. */
    method StandaloneTwinId(db: Database) returns (k: int)
      ensures k == TwinLookup(db.rows, SiteId, Name, Stamp, ProjectId)
    {
      var s := set j | j in db.rows && StandaloneTwin(db.rows[j], SiteId, Name, Stamp, ProjectId);
      if exists j :: j in s {
        LeastExists(s, ById);
        k :| IsLeast(s, ById, k);
        LeastUnique(s, ById, k);
      } else {
        k := 0;
      }
    }

    /** The row holding a uuid, or 0. */
    static method RowWithUuid(db: Database, uuid: string) returns (k: int)
      ensures k == UuidLookup(db.rows, uuid)
    {
      var s := set j | j in db.rows && db.rows[j].uuid == uuid;
      if exists j :: j in s {
        LeastExists(s, ById);
        k :| IsLeast(s, ById, k);
        LeastUnique(s, ById, k);
      } else {
        k := 0;
      }
    }

    /**
     * CreateParentBuild: give this subproject build a parent aggregate and
     * say whether this call made it. Negative counts read as 0. A standalone
     * build with the same name, site, stamp and project is promoted in place;
     * otherwise a row with parentid -1 and the uuid of an empty subproject
     * name is inserted, unless that uuid is taken, in which case its row is
     * adopted and nothing else happens. A made parent then receives this
     * build's counts, and the standalone builds left with this name, site,
     * stamp and project are re-parented to it.
     */
    method CreateParentBuild(db: Database, numErrors: int, numWarnings: int, hash: string -> string, fuel: nat)
        returns (created: bool)
      requires db.Valid()
      modifies db`rows, db`nextId, this`ParentId
      ensures db.Valid()
      ensures Creation(created, db.rows, db.nextId, ParentId)
              == ParentCreation(old(db.rows), old(db.nextId), old(ParentId), Who(), Inc(Clamp0(numErrors), Clamp0(numWarnings)), hash, fuel)
      ensures old(db.rows).Keys <= db.rows.Keys
      ensures forall k :: k in old(db.rows) ==> db.rows[k].uuid == old(db.rows)[k].uuid
    {
      var errors := numErrors;
      if errors < 0 {
        errors := 0;
      }
      var warnings := numWarnings;
      if warnings < 0 {
        warnings := 0;
      }
      var placed := PlaceParent(db, hash);
      if !placed {
        return false;
      }
      TallyParent(db, errors, warnings, fuel);
      created := true;
    }

    /**
     * The first half of CreateParentBuild: an existing standalone build is
     * promoted to parent, or else a parent row is inserted or adopted.
     * `placed` is false only for an adopted row.
     */
    method PlaceParent(db: Database, hash: string -> string) returns (placed: bool)
      requires db.Valid()
      modifies db`rows, db`nextId, this`ParentId
      ensures db.Valid()
      ensures Creation(placed, db.rows, db.nextId, ParentId) == ParentPlaced(old(db.rows), old(db.nextId), old(ParentId), Who(), hash)
      ensures old(db.rows).Keys <= db.rows.Keys
      ensures forall k :: k in old(db.rows) ==> db.rows[k].uuid == old(db.rows)[k].uuid
    {
      // A standalone twin is promoted when there is one.
      var twin := StandaloneTwinId(db);
      if twin != 0 {
        SetParentId(twin);
        // The twin becomes the aggregate (parentid -1).
        db.rows := Promote(db.rows, ParentId);
        placed := true;
      } else {
        var adopted := InsertParentRow(db, hash);
        placed := !adopted;
      }
    }

    /**
     * The insert of CreateParentBuild: a new row with parentid -1 and the
     * uuid of an empty subproject name; when that uuid is taken, its row is
     * adopted as the parent instead (`adopted`).
     */
    method InsertParentRow(db: Database, hash: string -> string) returns (adopted: bool)
      requires db.Valid()
      modifies db`rows, db`nextId, this`ParentId
      ensures db.Valid()
      ensures var existing := UuidLookup(old(db.rows), GenerateUuid(hash, Stamp, Name, SiteId, ProjectId, ""));
        && (adopted <==> existing != 0)
        && (adopted ==> db.rows == old(db.rows) && db.nextId == old(db.nextId)
                        && ParentId == ParentAfterSet(old(ParentId), existing, Id))
      ensures var n := old(db.nextId);
        !adopted ==>
          && n !in old(db.rows) && db.nextId == n + 1
          && db.rows == old(db.rows)[n := NewParentRow(SiteId, ProjectId, Stamp, Name, Type, StartTime, EndTime, SubmitTime,
                                                       GenerateUuid(hash, Stamp, Name, SiteId, ProjectId, ""))]
          && ParentId == if old(ParentId) == 0 then ParentAfterSet(0, n, Id) else old(ParentId)
    {
      var uuid := GenerateUuid(hash, Stamp, Name, SiteId, ProjectId, "");
      var existing := RowWithUuid(db, uuid);
      if existing != 0 {
        // The parent uuid is taken already: adopt that row.
        SetParentId(existing);
        return true;
      }
      var n := db.nextId;
      db.rows := db.rows[n := NewParentRow(SiteId, ProjectId, Stamp, Name, Type, StartTime, EndTime, SubmitTime, uuid)];
      db.nextId := n + 1;
      if ParentId == 0 {
        SetParentId(n);
      }
      adopted := false;
    }

    /**
     * The end of CreateParentBuild: the parent receives this build's counts,
     * then the standalone builds with this name, site, stamp and project
     * become its children.
     */
    method TallyParent(db: Database, errors: int, warnings: int, fuel: nat)
      requires db.Valid()
      modifies db`rows, this`ParentId
      ensures db.Valid()
      ensures var e := UpdateChain(old(db.rows), old(ParentId), Inc(errors, warnings), Id, old(ParentId), fuel);
        ParentId == e.parentId && db.rows == Reparent(e.rows, e.parentId, SiteId, Name, Stamp, ProjectId)
      ensures Creation(true, db.rows, db.nextId, ParentId) == ParentMade(old(db.rows), db.nextId, old(ParentId), Who(), Inc(errors, warnings), fuel)
      ensures db.rows.Keys == old(db.rows).Keys
      ensures forall k :: k in old(db.rows) ==> db.rows[k].uuid == old(db.rows)[k].uuid
    {
      ghost var before, pid := db.rows, ParentId;
      UpdateBuild(db, ParentId, errors, warnings, fuel);
      ChainKeepsUuids(before, pid, Inc(errors, warnings), Id, pid, fuel);
      // Builds of this name, site and stamp that arrived first become children.
      db.rows := Reparent(db.rows, ParentId, SiteId, Name, Stamp, ProjectId);
    }

    /** UpdateParentTestNumbers: add the deltas to the parent's test tallies, a -1 reading as 0. */
    method UpdateParentTestNumbers(db: Database, newFailed: int, newNotRun: int, newPassed: int)
      requires db.Valid()
      modifies db`rows
      ensures db.Valid()
      ensures db.rows == ParentTestsAdded(old(db.rows), ParentId, newFailed, newNotRun, newPassed)
    {
      if ParentId < 1 {
        return;
      }
      if ParentId !in db.rows {
        // The update finds no row.
        return;
      }
      var parent := db.rows[ParentId];
      // Tally reads a stored -1 as 0 before the deltas are added.
      var failed, notRun, passed := parent.testfailed, parent.testnotrun, parent.testpassed;
      if failed == -1 {
        failed := 0;
      }
      if notRun == -1 {
        notRun := 0;
      }
      if passed == -1 {
        passed := 0;
      }
      var parent' := parent.(testfailed := newFailed + failed, testnotrun := newNotRun + notRun, testpassed := newPassed + passed);
      assert parent' == AddTestNumbers(parent, newFailed, newNotRun, newPassed);
      db.rows := db.rows[ParentId := parent'];
    }

    /**
     * UpdateTestNumbers: the parent (found again by site, name and stamp)
     * receives the difference between the new counts and this build's stored
     * ones (negative stored counts reading as 0); then this build's counts
     * are overwritten. Failing tests are reported to the pull request.
     */
    method UpdateTestNumbers(db: Database, passed: int, failed: int, notRun: int)
      requires db.Valid()
      modifies db`rows, db`posted, this`ParentId, this`SubProjectName
      ensures db.Valid()
      ensures ParentId == ParentAfterSet(old(ParentId), ParentLookup(old(db.rows), SiteId, Name, Stamp), Id)
      ensures var rows' := TestNumbersAfter(old(db.rows), ParentId, Id, passed, failed, notRun);
        var t := NotifyTarget(ParentId, Id);
        if PullRequest.Some? && failed > 0 then
          && db.rows == MarkNotified(rows', t)
          && db.posted == old(db.posted) + (if Sends(rows', t) then [Comment(ProjectId, PullRequest.value, Said(FailingTestsMessage), TestsUrl(db))] else [])
        else db.rows == rows' && db.posted == old(db.posted)
      ensures var rows' := TestNumbersAfter(old(db.rows), ParentId, Id, passed, failed, notRun);
        SubProjectName == NameAfterPost(old(SubProjectName), Id, PullRequest.Some? && failed > 0 && Sends(rows', NotifyTarget(ParentId, Id)),
                                        NameIn(rows', db.subprojectNames, Id))
    {
      StoreTestNumbers(db, passed, failed, notRun);
      ReportFailingTests(db, failed);
    }

    /** The pull-request half of UpdateTestNumbers: failing tests are reported. */
    method ReportFailingTests(db: Database, failed: int)
      requires db.Valid()
      modifies db`rows, db`posted, this`SubProjectName
      ensures db.Valid()
      ensures var t := NotifyTarget(ParentId, Id);
        if PullRequest.Some? && failed > 0 then
          && db.rows == MarkNotified(old(db.rows), t)
          && db.posted == old(db.posted) + (if Sends(old(db.rows), t) then [Comment(ProjectId, PullRequest.value, Said(FailingTestsMessage), TestsUrl(db))] else [])
        else db.rows == old(db.rows) && db.posted == old(db.posted)
      ensures SubProjectName == NameAfterPost(old(SubProjectName), Id, PullRequest.Some? && failed > 0 && Sends(old(db.rows), NotifyTarget(ParentId, Id)),
                                              NameIn(old(db.rows), db.subprojectNames, Id))
    {
      if PullRequest.Some? && failed > 0 {
        NotifyPullRequest(db, FailingTestsMessage, TestsUrl(db));
      }
    }

    /** The database half of UpdateTestNumbers. */
    method StoreTestNumbers(db: Database, passed: int, failed: int, notRun: int)
      requires db.Valid()
      modifies db`rows, this`ParentId
      ensures db.Valid()
      ensures ParentId == ParentAfterSet(old(ParentId), ParentLookup(old(db.rows), SiteId, Name, Stamp), Id)
      ensures db.rows == TestNumbersAfter(old(db.rows), ParentId, Id, passed, failed, notRun)
    {
      ghost var rows0 := db.rows;
      var newFailed := failed - NumberOfTests(db, Failed);
      var newNotRun := notRun - NumberOfTests(db, NotRun);
      var newPassed := passed - NumberOfTests(db, Passed);
      assert (newFailed, newNotRun, newPassed) == TestDeltas(rows0, Id, passed, failed, notRun);
      var p := LookupParentBuildId(db);
      SetParentId(p);
      UpdateParentTestNumbers(db, newFailed, newNotRun, newPassed);
      // This build's own counts.
      ghost var rows1 := db.rows;
      if Id in db.rows {
        db.rows := db.rows[Id := SetTestNumbers(db.rows[Id], passed, failed, notRun)];
      }
      assert db.rows == ChildTestsSet(rows1, Id, passed, failed, notRun);
      assert db.rows.Keys == rows0.Keys && UniqueUuids(db.rows);
    }

    /** The link to this build's failing tests. */
    function TestsUrl(db: Database): string
      reads this`Id, db`serverUri
    {
      db.serverUri + "/viewTest.php?onlyfailed&buildid=" + IntToString(Id)
    }

    /**
     * UpdateParentConfigureNumbers: the parent (found again by site, name and
     * stamp) has the new configure errors and warnings added to its tallies,
     * a -1 reading as 0.
     */
    method UpdateParentConfigureNumbers(db: Database, newWarnings: int, newErrors: int)
      requires db.Valid()
      modifies db`rows, this`ParentId
      ensures db.Valid()
      ensures ParentId == ParentAfterSet(old(ParentId), ParentLookup(old(db.rows), SiteId, Name, Stamp), Id)
      ensures db.rows == ParentConfigureAdded(old(db.rows), ParentId, newWarnings, newErrors)
    {
      var p := LookupParentBuildId(db);
      SetParentId(p);
      AddParentConfigureNumbers(db, newWarnings, newErrors);
    }

    /** The update half of UpdateParentConfigureNumbers, for the parent already found. */
    method AddParentConfigureNumbers(db: Database, newWarnings: int, newErrors: int)
      requires db.Valid()
      modifies db`rows
      ensures db.Valid()
      ensures db.rows == ParentConfigureAdded(old(db.rows), ParentId, newWarnings, newErrors)
    {
      // Only an existing parent row is updated.
      if ParentId >= 1 && ParentId in db.rows {
        var parent := db.rows[ParentId];
        var errors, warnings := parent.configureerrors, parent.configurewarnings;
        if errors == -1 {
          errors := 0;
        }
        if warnings == -1 {
          warnings := 0;
        }
        var parent' := parent.(configureerrors := newErrors + errors, configurewarnings := newWarnings + warnings);
        assert parent' == AddConfigureNumbers(parent, newWarnings, newErrors);
        db.rows := db.rows[ParentId := parent'];
      }
    }

    /**
     * SaveTotalTestsTime: add the duration to this build's total test time
     * (inserting it the first time), then do the same for the parent found
     * by site, name and stamp. The parent is a new object without site, name
     * or stamp, so the walk stops there.
     */
    method SaveTotalTestsTime(db: Database, duration: int)
      modifies db`testTimes, this`ParentId
      ensures Id == 0 ==> db.testTimes == old(db.testTimes) && ParentId == old(ParentId)
      ensures Id != 0 ==>
        var p := ParentAfterSet(old(ParentId), ParentLookup(db.rows, SiteId, Name, Stamp), Id);
        && ParentId == p
        && db.testTimes == if p > 0 then AddTime(AddTime(old(db.testTimes), Id, duration), p, duration)
                           else AddTime(old(db.testTimes), Id, duration)
      decreases if SiteId == 0 then 0 else 1
    {
      if Id == 0 {
        return;
      }
      if Id in db.testTimes {
        db.testTimes := db.testTimes[Id := db.testTimes[Id] + duration];
      } else {
        db.testTimes := db.testTimes[Id := duration];
      }

      // A child build adds its duration to the parent's sum.
      var p := LookupParentBuildId(db);
      SetParentId(p);
      if ParentId > 0 {
        var parent := new Build();
        parent.Id := ParentId;
        parent.SaveTotalTestsTime(db, duration);
      }
    }

    /**
     * SetConfigureDuration: store this build's configure duration, then add
     * it to the parent's sum (the parent found again by site, name and stamp).
     */
    method SetConfigureDuration(db: Database, duration: int)
      requires db.Valid()
      modifies db`rows, this`ParentId
      ensures db.Valid()
      ensures Id == 0 ==> db.rows == old(db.rows) && ParentId == old(ParentId)
      ensures Id != 0 ==>
        var own := ConfigureDurationSet(old(db.rows), Id, duration);
        var p := ParentAfterSet(old(ParentId), ParentLookup(own, SiteId, Name, Stamp), Id);
        ParentId == p && db.rows == (if p > 0 then AddDuration(own, p, duration, true) else own)
    {
      if Id == 0 {
        return;
      }
      ghost var own := ConfigureDurationSet(db.rows, Id, duration);
      if Id in db.rows {
        db.rows := db.rows[Id := db.rows[Id].(configureduration := duration)];
      }
      assert db.rows == own;
      var p := LookupParentBuildId(db);
      SetParentId(p);
      if ParentId > 0 {
        db.rows := AddDuration(db.rows, ParentId, duration, true);
      }
    }

    /**
     * UpdateBuildDuration: a zero duration changes nothing; otherwise it is
     * added to this build's build duration and to its parent's.
     */
    method UpdateBuildDuration(db: Database, duration: int)
      requires db.Valid()
      modifies db`rows, this`ParentId
      ensures db.Valid()
      ensures duration == 0 || Id == 0 ==> db.rows == old(db.rows) && ParentId == old(ParentId)
      ensures duration != 0 && Id != 0 ==>
        var own := AddDuration(old(db.rows), Id, duration, false);
        var p := ParentAfterSet(old(ParentId), ParentLookup(own, SiteId, Name, Stamp), Id);
        ParentId == p && db.rows == (if p > 0 then AddDuration(own, p, duration, false) else own)
    {
      if duration == 0 || Id == 0 {
        return;
      }
      db.rows := AddDuration(db.rows, Id, duration, false);
      var p := LookupParentBuildId(db);
      SetParentId(p);
      if ParentId > 0 {
        db.rows := AddDuration(db.rows, ParentId, duration, false);
      }
    }

    /**
     * GetSubProjectName: nothing without an id; the name already known, if
     * any; otherwise the name of the build's subproject, which is then kept.
     */
    method GetSubProjectName(db: Database) returns (r: Option<string>)
      modifies this`SubProjectName
      ensures Id == 0 ==> r == None && SubProjectName == old(SubProjectName)
      ensures Id != 0 && Truthy(old(SubProjectName)) ==> r == Some(old(SubProjectName)) && SubProjectName == old(SubProjectName)
      ensures Id != 0 && !Truthy(old(SubProjectName)) ==>
        && r == NameIn(db.rows, db.subprojectNames, Id)
        && SubProjectName == if r.Some? then r.value else old(SubProjectName)
    {
      if Id == 0 {
        return None;
      }
      if Truthy(SubProjectName) {
        return Some(SubProjectName);
      }
      r := NameIn(db.rows, db.subprojectNames, Id);
      if r.Some? {
        SubProjectName := r.value;
      }
    }

    /** The comment text: the message, the subproject that caused it (if known), a full stop. */
    function Said(message: string): string
      reads this`Id, this`SubProjectName
    {
      message + (if Id != 0 && Truthy(SubProjectName) then " during " + SubProjectName else "") + "."
    }

    /** The comment text starts with the message and ends with a full stop; without a known subproject it is just those. */
    lemma SaidText(message: string)
      ensures message < Said(message) && Said(message)[|Said(message)| - 1] == '.'
      ensures !(Id != 0 && Truthy(SubProjectName)) ==> Said(message) == message + "."
      ensures Id != 0 && Truthy(SubProjectName) ==> Said(message)[|message|..] == " during " + SubProjectName + "."
    {
      var s := Said(message);
      var tail := (if Id != 0 && Truthy(SubProjectName) then " during " + SubProjectName else "") + ".";
      assert s == message + tail;
      assert s[..|message|] == message;
    }

    /**
     * NotifyPullRequest: speak for the parent when there is one, else for
     * this build; post only if that row exists and is not yet notified, then
     * mark it notified.
     */
    method NotifyPullRequest(db: Database, message: string, url: string)
      requires db.Valid() && PullRequest.Some?
      modifies db`rows, db`posted, this`SubProjectName
      ensures db.Valid()
      ensures var t := NotifyTarget(ParentId, Id);
        && db.rows == MarkNotified(old(db.rows), t)
        && db.posted == old(db.posted) + (if Sends(old(db.rows), t) then [Comment(ProjectId, PullRequest.value, Said(message), url)] else [])
      ensures SubProjectName == NameAfterPost(old(SubProjectName), Id, Sends(old(db.rows), NotifyTarget(ParentId, Id)),
                                              NameIn(old(db.rows), db.subprojectNames, Id))
    {
      var target := Id;
      if ParentId > 0 {
        target := ParentId;
      }
      // A build that has already commented (or a missing row) stops here.
      var notified := true;
      if target in db.rows {
        notified := db.rows[target].notified;
      }
      if notified {
        return;
      }
      var text := message;
      var name := GetSubProjectName(db);
      if name.Some? && Truthy(name.value) {
        text := text + " during " + SubProjectName;
      }
      text := text + ".";
      assert text == Said(message);
      db.posted := db.posted + [Comment(ProjectId, PullRequest.value, text, url)];
      db.rows := db.rows[target := db.rows[target].(notified := true)];
    }

    /** Exists: the build has an id and a row. */
    predicate Stored(db: Database)
      reads this`Id, db`rows
    {
      Id != 0 && Id in db.rows
    }

    /**
     * Save: count the errors and warnings (-1 each unless errors are
     * inserted); a build not yet stored is inserted (SaveNew), one already
     * stored gets a space before its command and log and is updated with the
     * counts. Unless the insert stopped early, the errors are then inserted
     * under the build's id and, for a pull request, a build with errors
     * posts a comment. Only a refused insert (its id taken by the parent row
     * this save made) returns false.
     */
    method Save(db: Database, hash: string -> string, stampType: string -> string, fuel: nat) returns (ok: bool, ghost saved: Saved)
      requires db.Valid()
      modifies this`Type, this`ParentId, this`Uuid, this`Id, this`Command, this`Log, this`Errors, this`SubProjectName,
               db`rows, db`nextId, db`errors, db`posted
      ensures db.Valid() && Stored(db)
      ensures old(Stored(db)) ==>
        && ok && Id == old(Id) && Command == " " + old(Command) && Log == " " + old(Log)
        && Errors == Stamped(old(Errors), Id) && db.errors == old(db.errors) + Errors
        && var e := UpdateChain(old(db.rows), Id, Inc(old(SaveCounts()).0, old(SaveCounts()).1), Id, old(ParentId), fuel);
           var due, t := PullRequest.Some? && ErrorCount(old(Errors)) > 0, NotifyTarget(e.parentId, Id);
           && ParentId == e.parentId && db.nextId == old(db.nextId)
           && db.rows == AfterPost(e.rows, t, due)
           && db.posted == old(db.posted) + (if due && Sends(e.rows, t) then [ErrorComment(db)] else [])
           && SubProjectName == NameAfterPost(old(SubProjectName), Id, due && Sends(e.rows, t), NameIn(e.rows, db.subprojectNames, Id))
      ensures !old(Stored(db)) ==>
        && Type == old(GuessedType(stampType)) && Command == old(Command) && Log == old(Log)
        && Uuid == old(GenerateUuid(hash, Stamp, Name, SiteId, ProjectId, SubProjectName))
        && (ok ==> db.rows[Id].uuid == Uuid)
        && (!ok ==> Id == old(Id) && Id !in old(db.rows) && db.errors == old(db.errors))
        && saved == SavedNew(old(db.rows), old(db.nextId),
                             old(Submitted(SaveCounts().0, SaveCounts().1, hash).Typed(GuessedType(stampType))), hash, fuel)
        && var due, t := saved.outcome == Inserted && PullRequest.Some? && ErrorCount(old(Errors)) > 0, NotifyTarget(saved.parentId, saved.id);
           && ok == (saved.outcome != Refused) && Id == saved.id && ParentId == saved.parentId && db.nextId == saved.nextId
           && db.rows == AfterPost(saved.rows, t, due)
           && Errors == (if saved.outcome == Inserted then Stamped(old(Errors), Id) else old(Errors))
           && db.errors == old(db.errors) + (if saved.outcome == Inserted then Errors else [])
           && db.posted == old(db.posted) + (if due && Sends(saved.rows, t) then [ErrorComment(db)] else [])
           && SubProjectName == NameAfterPost(old(SubProjectName), Id, due && Sends(saved.rows, t), NameIn(saved.rows, db.subprojectNames, Id))
    {
      var nErrors, nWarnings := -1, -1;
      if InsertErrors {
        nErrors, nWarnings := CountErrors(Errors);
      }
      assert (nErrors, nWarnings) == SaveCounts();
      if !Stored(db) {
        ok, saved := SaveUnstored(db, nErrors, nWarnings, hash, stampType, fuel);
      } else {
        SaveStored(db, nErrors, nWarnings, fuel);
        ok, saved := true, Saved(Inserted, db.rows, db.nextId, ParentId, Id);
      }
    }

    /** The counts Save writes: errors (type 0) and warnings when errors are inserted, -1 each otherwise. */
    function SaveCounts(): (int, int)
      reads this`InsertErrors, this`Errors
    {
      if InsertErrors then (ErrorCount(Errors) as int, |Errors| - ErrorCount(Errors)) else (-1, -1)
    }

    /** Save of a build already stored. */
    method SaveStored(db: Database, nErrors: int, nWarnings: int, fuel: nat)
      requires db.Valid() && Stored(db) && (nErrors, nWarnings) == SaveCounts()
      modifies this`ParentId, this`Command, this`Log, this`Errors, this`SubProjectName,
               db`rows, db`errors, db`posted
      ensures db.Valid() && Stored(db)
      ensures Command == " " + old(Command) && Log == " " + old(Log)
      ensures Errors == Stamped(old(Errors), Id) && db.errors == old(db.errors) + Errors
      ensures var e := UpdateChain(old(db.rows), Id, Inc(old(SaveCounts()).0, old(SaveCounts()).1), Id, old(ParentId), fuel);
        var due, t := PullRequest.Some? && ErrorCount(old(Errors)) > 0, NotifyTarget(e.parentId, Id);
        && ParentId == e.parentId
        && db.rows == AfterPost(e.rows, t, due)
        && db.posted == old(db.posted) + (if due && Sends(e.rows, t) then [ErrorComment(db)] else [])
        && SubProjectName == NameAfterPost(old(SubProjectName), Id, due && Sends(e.rows, t), NameIn(e.rows, db.subprojectNames, Id))
    {
      SaveExisting(db, nErrors, nWarnings, fuel);
      SaveErrorsAndPost(db);
    }

    /** Save of a build not yet stored: its type is guessed when empty; false when the insert was refused. */
    method SaveUnstored(db: Database, nErrors: int, nWarnings: int, hash: string -> string, stampType: string -> string, fuel: nat)
        returns (ok: bool, ghost saved: Saved)
      requires db.Valid() && !Stored(db) && (nErrors, nWarnings) == SaveCounts()
      modifies this`Type, this`ParentId, this`Uuid, this`Id, this`Errors, this`SubProjectName,
               db`rows, db`nextId, db`errors, db`posted
      ensures db.Valid() && Stored(db)
      ensures Type == old(GuessedType(stampType))
      ensures Uuid == old(GenerateUuid(hash, Stamp, Name, SiteId, ProjectId, SubProjectName))
      ensures ok ==> db.rows[Id].uuid == Uuid
      ensures !ok ==> Id == old(Id) && Id !in old(db.rows) && db.errors == old(db.errors)
      ensures saved == SavedNew(old(db.rows), old(db.nextId), old(Submitted(SaveCounts().0, SaveCounts().1, hash).Typed(GuessedType(stampType))), hash, fuel)
      ensures ok == (saved.outcome != Refused) && Id == saved.id && ParentId == saved.parentId && db.nextId == saved.nextId
      ensures var due, t := saved.outcome == Inserted && PullRequest.Some? && ErrorCount(old(Errors)) > 0, NotifyTarget(saved.parentId, saved.id);
        && db.rows == AfterPost(saved.rows, t, due)
        && Errors == (if saved.outcome == Inserted then Stamped(old(Errors), Id) else old(Errors))
        && db.errors == old(db.errors) + (if saved.outcome == Inserted then Errors else [])
        && db.posted == old(db.posted) + (if due && Sends(saved.rows, t) then [ErrorComment(db)] else [])
        && SubProjectName == NameAfterPost(old(SubProjectName), Id, due && Sends(saved.rows, t), NameIn(saved.rows, db.subprojectNames, Id))
    {
      ghost var sub := Submitted(nErrors, nWarnings, hash).Typed(GuessedType(stampType));
      if |Type| == 0 {
        Type := stampType(Stamp);
      }
      ok, saved := SaveTyped(db, nErrors, nWarnings, hash, fuel, sub);
    }

    /** Save of a build not yet stored, once its type is known. */
    method SaveTyped(db: Database, nErrors: int, nWarnings: int, hash: string -> string, fuel: nat, ghost sub: Submission)
        returns (ok: bool, ghost saved: Saved)
      requires db.Valid() && !Stored(db) && sub == Submitted(nErrors, nWarnings, hash)
      modifies this`ParentId, this`Uuid, this`Id, this`Errors, this`SubProjectName,
               db`rows, db`nextId, db`errors, db`posted
      ensures db.Valid() && Stored(db)
      ensures Uuid == sub.row.uuid
      ensures ok ==> db.rows[Id].uuid == Uuid
      ensures !ok ==> Id == old(Id) && Id !in old(db.rows) && db.errors == old(db.errors)
      ensures saved == SavedNew(old(db.rows), old(db.nextId), sub, hash, fuel)
      ensures ok == (saved.outcome != Refused) && Id == saved.id && ParentId == saved.parentId && db.nextId == saved.nextId
      ensures var due, t := saved.outcome == Inserted && PullRequest.Some? && ErrorCount(old(Errors)) > 0, NotifyTarget(saved.parentId, saved.id);
        && db.rows == AfterPost(saved.rows, t, due)
        && Errors == (if saved.outcome == Inserted then Stamped(old(Errors), Id) else old(Errors))
        && db.errors == old(db.errors) + (if saved.outcome == Inserted then Errors else [])
        && db.posted == old(db.posted) + (if due && Sends(saved.rows, t) then [ErrorComment(db)] else [])
        && SubProjectName == NameAfterPost(old(SubProjectName), Id, due && Sends(saved.rows, t), NameIn(saved.rows, db.subprojectNames, Id))
    {
      var outcome := SaveNew(db, nErrors, nWarnings, hash, fuel, sub);
      saved := Saved(outcome, db.rows, db.nextId, ParentId, Id);
      ok := AfterInsert(db, outcome, saved, old(Errors));
    }

    /** The end of SaveUnstored: only a real insert goes on to its errors and the pull request. */
    method AfterInsert(db: Database, outcome: Insertion, ghost saved: Saved, ghost errors: seq<ErrorRow>) returns (ok: bool)
      requires db.Valid() && Stored(db) && saved == Saved(outcome, db.rows, db.nextId, ParentId, Id) && errors == Errors
      requires outcome != Refused ==> db.rows[Id].uuid == Uuid
      modifies db`rows, db`errors, db`posted, this`Errors, this`SubProjectName
      ensures db.Valid() && Stored(db)
      ensures ok ==> db.rows[Id].uuid == Uuid
      ensures ok == (saved.outcome != Refused) && Id == saved.id && ParentId == saved.parentId && db.nextId == saved.nextId
      ensures var due, t := saved.outcome == Inserted && PullRequest.Some? && ErrorCount(errors) > 0, NotifyTarget(saved.parentId, saved.id);
        && db.rows == AfterPost(saved.rows, t, due)
        && Errors == (if saved.outcome == Inserted then Stamped(errors, Id) else errors)
        && db.errors == old(db.errors) + (if saved.outcome == Inserted then Errors else [])
        && db.posted == old(db.posted) + (if due && Sends(saved.rows, t) then [ErrorComment(db)] else [])
        && SubProjectName == NameAfterPost(old(SubProjectName), Id, due && Sends(saved.rows, t), NameIn(saved.rows, db.subprojectNames, Id))
    {
      if outcome != Inserted {
        // Refused, or the existing build and its parent are up to date: stop here.
        return outcome == Adopted;
      }
      SaveErrorsAndPost(db);
      ok := true;
    }

    /** The end of Save for a stored build: its errors are inserted, then the pull request may get a comment. */
    method SaveErrorsAndPost(db: Database)
      requires db.Valid() && Stored(db)
      modifies db`rows, db`errors, db`posted, this`Errors, this`SubProjectName
      ensures db.Valid() && Stored(db) && db.rows.Keys == old(db.rows).Keys
      ensures forall k :: k in old(db.rows) ==> db.rows[k].uuid == old(db.rows)[k].uuid
      ensures Errors == Stamped(old(Errors), Id) && db.errors == old(db.errors) + Errors
      ensures var due, t := PullRequest.Some? && ErrorCount(old(Errors)) > 0, NotifyTarget(ParentId, Id);
        && db.rows == AfterPost(old(db.rows), t, due)
        && db.posted == old(db.posted) + (if due && Sends(old(db.rows), t) then [ErrorComment(db)] else [])
        && SubProjectName == NameAfterPost(old(SubProjectName), Id, due && Sends(old(db.rows), t), NameIn(old(db.rows), db.subprojectNames, Id))
    {
      SaveErrors(db);
      StampedKeepsCount(old(Errors), Id);
      PostBuildErrors(db);
    }

    /** A build already stored: a space goes before its command and log, and it is updated with the counts. */
    method SaveExisting(db: Database, nErrors: int, nWarnings: int, fuel: nat)
      requires db.Valid() && Stored(db)
      modifies this`Command, this`Log, this`ParentId, db`rows
      ensures db.Valid() && db.rows.Keys == old(db.rows).Keys
      ensures forall k :: k in old(db.rows) ==> db.rows[k].uuid == old(db.rows)[k].uuid
      ensures Command == " " + old(Command) && Log == " " + old(Log)
      ensures Effect(db.rows, ParentId) == UpdateChain(old(db.rows), Id, Inc(nErrors, nWarnings), Id, old(ParentId), fuel)
    {
      Command := " " + Command;
      Log := " " + Log;
      UpdateBuild(db, Id, nErrors, nWarnings, fuel);
      ChainKeepsUuids(old(db.rows), Id, Inc(nErrors, nWarnings), Id, old(ParentId), fuel);
    }

    /** The error and warning counts: errors of type 0, warnings of any other type. */
    static method CountErrors(errors: seq<ErrorRow>) returns (nErrors: int, nWarnings: int)
      ensures nErrors == ErrorCount(errors) && nWarnings == |errors| - ErrorCount(errors)
    {
      nErrors, nWarnings := 0, 0;
      for i := 0 to |errors|
        invariant nErrors == ErrorCount(errors[..i]) && nWarnings == i - nErrors
      {
        assert errors[..i + 1][..i] == errors[..i];
        if errors[i].errtype == 0 {
          nErrors := nErrors + 1;
        } else {
          nWarnings := nWarnings + 1;
        }
      }
      assert errors[..|errors|] == errors;
    }

    /**
     * The branch of Save for a build not yet stored, once its type is known:
     * a subproject build finds or makes its parent, the uuid is computed, and the row is inserted at the given id or the next
     * auto-increment id. The insert fails when the id or the uuid is taken:
     * the build holding the uuid is then adopted, and without one the save
     * is refused. After a real insert the parent receives the counts, unless
     * this call made it (it has them already).
     */
    method SaveNew(db: Database, nErrors: int, nWarnings: int, hash: string -> string, fuel: nat, ghost sub: Submission)
        returns (outcome: Insertion)
      requires db.Valid() && sub == Submitted(nErrors, nWarnings, hash)
      modifies this`ParentId, this`Uuid, this`Id, db`rows, db`nextId
      ensures db.Valid() && old(db.rows).Keys <= db.rows.Keys
      ensures Uuid == sub.row.uuid
      ensures outcome != Refused ==> Stored(db) && db.rows[Id].uuid == Uuid
      ensures outcome == Refused ==> Stored(db) && Id == old(Id)
      ensures Saved(outcome, db.rows, db.nextId, ParentId, Id) == SavedNew(old(db.rows), old(db.nextId), sub, hash, fuel)
    {
      var justCreated := ChooseParent(db, nErrors, nWarnings, hash, fuel, sub);
      outcome := InsertNew(db, justCreated, nErrors, nWarnings, hash, fuel, sub);
    }

    /**
     * The insert proper: refused or turned into an adoption when the id or
     * the uuid is taken; otherwise the row is stored and, unless this save
     * made the parent, the parent receives the counts.
     */
    method InsertNew(db: Database, justCreated: bool, nErrors: int, nWarnings: int, hash: string -> string, fuel: nat,
                     ghost sub: Submission)
        returns (outcome: Insertion)
      requires db.Valid() && sub == Submitted(nErrors, nWarnings, hash)
      modifies this`ParentId, this`Uuid, this`Id, db`rows, db`nextId
      ensures db.Valid() && old(db.rows).Keys <= db.rows.Keys
      ensures Uuid == sub.row.uuid
      ensures outcome == InsertOutcome(old(db.rows), Uuid, old(Id))
      ensures outcome != Refused ==> Stored(db) && db.rows[Id].uuid == Uuid
      ensures outcome == Refused ==> Stored(db) && Id == old(Id)
      ensures Saved(outcome, db.rows, db.nextId, ParentId, Id)
              == Inserting(Creation(justCreated, old(db.rows), old(db.nextId), old(ParentId)), sub, hash, fuel)
    {
      Uuid := GenerateUuid(hash, Stamp, Name, SiteId, ProjectId, SubProjectName);
      outcome := InsertUnder(db, justCreated, nErrors, nWarnings, hash, fuel, sub);
    }

    /** The insert under the uuid just computed. */
    method InsertUnder(db: Database, justCreated: bool, nErrors: int, nWarnings: int, hash: string -> string, fuel: nat,
                       ghost sub: Submission)
        returns (outcome: Insertion)
      requires db.Valid() && sub == Submitted(nErrors, nWarnings, hash) && Uuid == sub.row.uuid
      modifies this`ParentId, this`Id, db`rows, db`nextId
      ensures db.Valid() && old(db.rows).Keys <= db.rows.Keys
      ensures outcome == InsertOutcome(old(db.rows), Uuid, old(Id))
      ensures outcome != Refused ==> Stored(db) && db.rows[Id].uuid == Uuid
      ensures outcome == Refused ==> Stored(db) && Id == old(Id)
      ensures Saved(outcome, db.rows, db.nextId, ParentId, Id)
              == Inserting(Creation(justCreated, old(db.rows), old(db.nextId), old(ParentId)), sub, hash, fuel)
    {
      var existing := RowWithUuid(db, Uuid);
      if existing != 0 || (Id != 0 && Id in db.rows) {
        if existing != 0 {
          AdoptExisting(db, existing, nErrors, nWarnings, hash, fuel, sub);
          return Adopted;
        }
        return Refused;
      }
      InsertFresh(db, justCreated, nErrors, nWarnings, fuel, sub);
      outcome := Inserted;
    }

    /** The row is stored; unless this save made the parent, the parent's tally receives this build's counts. */
    method InsertFresh(db: Database, justCreated: bool, nErrors: int, nWarnings: int, fuel: nat, ghost sub: Submission)
      requires db.Valid() && !Stored(db) && sub.row == NewRow(nErrors, nWarnings, 0) && sub.u == Inc(nErrors, nWarnings)
      requires forall k :: k in db.rows ==> db.rows[k].uuid != Uuid
      modifies this`ParentId, this`Id, db`rows, db`nextId
      ensures db.Valid() && old(db.rows).Keys <= db.rows.Keys
      ensures Stored(db) && db.rows[Id].uuid == Uuid
      ensures Id == (if old(Id) != 0 then old(Id) else old(db.nextId)) && Id !in old(db.rows)
      ensures db.nextId == if Id < old(db.nextId) then old(db.nextId) else Id + 1
      ensures Effect(db.rows, ParentId)
              == RowInserted(old(db.rows), Id, sub.row.(parentid := old(ParentId)), justCreated, sub.u, fuel)
    {
      assert NewRow(nErrors, nWarnings, ParentId) == sub.row.(parentid := ParentId);
      InsertRow(db, nErrors, nWarnings);
      if !justCreated {
        CreditParent(db, nErrors, nWarnings, fuel, sub.u);
      }
    }

    /**
     * The parent of a new build: none, unless it belongs to a subproject; then
     * the parent aggregate with its site, name and stamp, or, when there is
     * none, a parent made by CreateParentBuild (`justCreated` says whether
     * this call made it).
     */
    method ChooseParent(db: Database, nErrors: int, nWarnings: int, hash: string -> string, fuel: nat, ghost sub: Submission)
        returns (justCreated: bool)
      requires db.Valid() && sub == Submitted(nErrors, nWarnings, hash)
      modifies db`rows, db`nextId, this`ParentId
      ensures db.Valid() && old(db.rows).Keys <= db.rows.Keys
      ensures Creation(justCreated, db.rows, db.nextId, ParentId)
              == ParentChosen(old(db.rows), old(db.nextId), sub.subproject, sub.who, sub.u0, hash, fuel)
    {
      SetParentId(0);
      justCreated := false;
      if Truthy(SubProjectName) {
        var p := LookupParentBuildId(db);
        SetParentId(p);
        if ParentId == 0 {
          // No parent aggregate yet: this build creates one.
          justCreated := CreateParentBuild(db, nErrors, nWarnings, hash, fuel);
        }
      }
    }

    /**
     * The insert failed on the uuid: take the id of the build holding it and
     * update that build (and its parent); a subproject build still without a
     * parent then gets one, and a parent somebody else made meanwhile is
     * updated too.
     */
    method AdoptExisting(db: Database, existing: int, nErrors: int, nWarnings: int, hash: string -> string, fuel: nat,
                         ghost sub: Submission)
      requires db.Valid() && existing in db.rows && sub == Submitted(nErrors, nWarnings, hash)
      modifies db`rows, db`nextId, this`Id, this`ParentId
      ensures db.Valid() && Id == existing && old(db.rows).Keys <= db.rows.Keys
      ensures db.rows[existing].uuid == old(db.rows)[existing].uuid
      ensures var a := Adoption(old(db.rows), old(db.nextId), existing, old(ParentId), sub.subproject, sub.who.(id := existing),
                                sub.u, sub.u0, hash, fuel);
        db.rows == a.rows && db.nextId == a.nextId && ParentId == a.parentId
    {
      Id := existing;
      ghost var before := db.rows;
      UpdateBuild(db, Id, nErrors, nWarnings, fuel);
      assert Inc(nErrors, nWarnings) == sub.u;
      ChainKeepsUuids(before, Id, sub.u, Id, old(ParentId), fuel);
      assert db.rows.Keys == before.Keys && UniqueUuids(db.rows);
      // A subproject build the adopted row leaves without a parent completes it here.
      if Truthy(SubProjectName) && ParentId < 1 {
        CompleteParent(db, nErrors, nWarnings, hash, fuel, sub.who.(id := existing), sub.u, sub.u0);
      }
    }

    /**
     * The parent an adopted build still lacks: made by CreateParentBuild, or,
     * when somebody else made it meanwhile, updated with the counts.
     */
    method CompleteParent(db: Database, nErrors: int, nWarnings: int, hash: string -> string, fuel: nat,
                          ghost who: Identity, ghost u: Increment, ghost u0: Increment)
      requires db.Valid() && Id in db.rows
      requires who == Who() && u == Inc(nErrors, nWarnings) && u0 == Inc(Clamp0(nErrors), Clamp0(nWarnings))
      modifies db`rows, db`nextId, this`ParentId
      ensures db.Valid() && old(db.rows).Keys <= db.rows.Keys
      ensures db.rows[Id].uuid == old(db.rows)[Id].uuid
      ensures var c := ParentCreation(old(db.rows), old(db.nextId), old(ParentId), who, u0, hash, fuel);
        && db.nextId == c.nextId
        && (c.created ==> db.rows == c.rows && ParentId == c.parentId)
        && (!c.created ==> Effect(db.rows, ParentId) == UpdateChain(c.rows, c.parentId, u, Id, c.parentId, fuel))
    {
      var created := CreateParentBuild(db, nErrors, nWarnings, hash, fuel);
      ghost var made := Creation(created, db.rows, db.nextId, ParentId);
      assert made == ParentCreation(old(db.rows), old(db.nextId), old(ParentId), who, u0, hash, fuel);
      if !created {
        // The parent row was adopted, not made here: it receives the counts too.
        CreditParent(db, nErrors, nWarnings, fuel, u);
      }
    }

    /** The counts go to this build's parent, and from it up the chain. */
    method CreditParent(db: Database, nErrors: int, nWarnings: int, fuel: nat, ghost u: Increment)
      requires db.Valid() && u == Inc(nErrors, nWarnings)
      modifies db`rows, this`ParentId
      ensures db.Valid() && db.rows.Keys == old(db.rows).Keys
      ensures forall k :: k in old(db.rows) ==> db.rows[k].uuid == old(db.rows)[k].uuid
      ensures Effect(db.rows, ParentId) == UpdateChain(old(db.rows), old(ParentId), u, Id, old(ParentId), fuel)
    {
      ghost var made, pid := db.rows, ParentId;
      UpdateBuild(db, ParentId, nErrors, nWarnings, fuel);
      ChainKeepsUuids(made, pid, Inc(nErrors, nWarnings), Id, pid, fuel);
      ChainKeepsShape(made, pid, Inc(nErrors, nWarnings), Id, pid, fuel);
    }

    /** The row of a new build, at its own id or the next auto-increment id, which then moves past it. */
    method InsertRow(db: Database, nErrors: int, nWarnings: int)
      requires db.Valid() && !Stored(db)
      requires forall k :: k in db.rows ==> db.rows[k].uuid != Uuid
      modifies db`rows, db`nextId, this`Id
      ensures db.Valid()
      ensures Id == if old(Id) != 0 then old(Id) else old(db.nextId)
      ensures Id != 0 && Id !in old(db.rows)
      ensures db.rows == old(db.rows)[Id := old(NewRow(nErrors, nWarnings, ParentId))]
      ensures db.nextId == if Id < old(db.nextId) then old(db.nextId) else Id + 1
    {
      var id := Id;
      if id == 0 {
        id := db.nextId;
      }
      db.rows := db.rows[id := NewRow(nErrors, nWarnings, ParentId)];
      if db.nextId <= id {
        db.nextId := id + 1;
      }
      Id := id;
    }

    /** The errors are inserted under this build's id. */
    method SaveErrors(db: Database)
      modifies db`errors, this`Errors
      ensures Errors == Stamped(old(Errors), Id)
      ensures db.errors == old(db.errors) + Errors
    {
      var errors := Errors;
      var stamped: seq<ErrorRow> := [];
      for i := 0 to |errors|
        invariant stamped == Stamped(errors[..i], Id)
        invariant db.errors == old(db.errors) + stamped
      {
        var e := errors[i].(buildid := Id);
        db.errors := db.errors + [e];
        stamped := stamped + [e];
      }
      assert errors[..|errors|] == errors;
      Errors := stamped;
    }

    /** The link posted with an error comment. */
    function ErrorsUrl(db: Database): string
      reads this`Id, db`serverUri
    {
      db.serverUri + "/viewBuildError.php?buildid=" + IntToString(Id)
    }

    /** The comment a build with errors posts to its pull request. */
    function ErrorComment(db: Database): Comment
      requires PullRequest.Some?
      reads this`ProjectId, this`PullRequest, this`Id, this`SubProjectName, db`serverUri
    {
      Comment(ProjectId, PullRequest.value, Said(ErrorsMessage), ErrorsUrl(db))
    }

    /** For a pull request, a build with at least one error (type 0) posts a comment. */
    method PostBuildErrors(db: Database)
      requires db.Valid()
      modifies db`rows, db`posted, this`SubProjectName
      ensures db.Valid()
      ensures PullRequest.None? || ErrorCount(Errors) == 0 ==>
        db.rows == old(db.rows) && db.posted == old(db.posted) && SubProjectName == old(SubProjectName)
      ensures PullRequest.Some? && ErrorCount(Errors) > 0 ==>
        var t := NotifyTarget(ParentId, Id);
        && db.rows == MarkNotified(old(db.rows), t)
        && db.posted == old(db.posted) + (if Sends(old(db.rows), t) then [ErrorComment(db)] else [])
        && SubProjectName == NameAfterPost(old(SubProjectName), Id, Sends(old(db.rows), t), NameIn(old(db.rows), db.subprojectNames, Id))
    {
      if PullRequest.None? {
        return;
      }
      var hasErrors := false;
      var i := 0;
      while i < |Errors|
        invariant 0 <= i <= |Errors|
        invariant hasErrors ==> ErrorCount(Errors) > 0
        invariant !hasErrors ==> forall j :: 0 <= j < i ==> Errors[j].errtype != 0
        invariant hasErrors ==> i < |Errors|
      {
        if Errors[i].errtype == 0 {
          hasErrors := true;
          NoErrorsMeansNoTypeZero(Errors);
          break;
        }
        i := i + 1;
      }
      NoErrorsMeansNoTypeZero(Errors);
      if hasErrors {
        NotifyPullRequest(db, ErrorsMessage, ErrorsUrl(db));
      }
    }

    /** The increment an UpdateBuild call carries: this object's flag, times and texts. */
    function Inc(newErrors: int, newWarnings: int): Increment
      reads this`InsertErrors, this`StartTime, this`EndTime, this`Log, this`Command
    {
      Increment(InsertErrors, newErrors, newWarnings, StartTime, EndTime, Log, Command)
    }

    /**
     * UpdateBuild: merge this object's counts, times and texts into row
     * `buildid`, writing only when some clause applies, then do the same for
     * that row's parent. `fuel` bounds the walk up the parent chain.
     */
    method UpdateBuild(db: Database, buildid: int, newErrors: int, newWarnings: int, fuel: nat)
      modifies db`rows, this`ParentId
      ensures Effect(db.rows, ParentId) == UpdateChain(old(db.rows), buildid, Inc(newErrors, newWarnings), Id, old(ParentId), fuel)
      decreases fuel
    {
      if buildid < 1 || buildid !in db.rows {
        return;
      }
      var build := db.rows[buildid];
      var updated, clauses := MergeRow(build, Inc(newErrors, newWarnings));
      ClausesAreTheChanges(build, Inc(newErrors, newWarnings));
      if clauses != {} {
        db.rows := db.rows[buildid := updated];
      } else {
        assert db.rows == db.rows[buildid := updated];
      }

      // The walk goes on at the parent.
      var parentid := db.rows[buildid].parentid;
      if parentid > 0 {
        if buildid == parentid || fuel == 0 {
          return;
        }
        UpdateBuild(db, parentid, newErrors, newWarnings, fuel - 1);
        if buildid == Id {
          SetParentId(parentid);
        }
      }
    }

    /**
     * The write UpdateBuild makes to one stored row, with the clauses the
     * source emits for it (an empty set means no write).
     */
    static method MergeRow(build: Row, u: Increment) returns (updated: Row, clauses: set<Field>)
      ensures updated == ApplyUpdate(build, u)
      ensures clauses == Clauses(build, u)
    {
      var numErrors, errorsClause := MergeCount(build.builderrors, u.errors, u.insertErrors);
      var numWarnings, warningsClause := MergeCount(build.buildwarnings, u.warnings, u.insertErrors);
      // Widen the time window.
      var starttime, startClause := Earlier(build.starttime, u.starttime);
      var endtime, endClause := Later(build.endtime, u.endtime);
      // Append a new log or command.
      var log, logClause := MergeText(build.log, u.log);
      var command, commandClause := MergeText(build.command, u.command);

      clauses := (if errorsClause then {BuildErrorsField} else {})
                 + (if warningsClause then {BuildWarningsField} else {})
                 + (if startClause then {StartTimeField} else {})
                 + (if endClause then {EndTimeField} else {})
                 + (if logClause then {LogField} else {})
                 + (if commandClause then {CommandField} else {});
      updated := build.(builderrors := numErrors, buildwarnings := numWarnings,
                        starttime := starttime, endtime := endtime, log := log, command := command);
    }

    static method Earlier(stored: int, caller: int) returns (value: int, clause: bool)
      ensures clause <==> stored > caller
      ensures value == if clause then caller else stored
    {
      value := stored;
      clause := false;
      if stored > caller {
        clause := true;
        value := caller;
      }
    }

    static method Later(stored: int, caller: int) returns (value: int, clause: bool)
      ensures clause <==> stored < caller
      ensures value == if clause then caller else stored
    {
      value := stored;
      clause := false;
      if stored < caller {
        clause := true;
        value := caller;
      }
    }

    /** log and command: a non-empty caller text that differs from the stored one is appended. */
    static method MergeText(stored: string, caller: string) returns (value: string, clause: bool)
      ensures clause <==> Truthy(caller) && caller != stored
      ensures value == Appended(stored, caller)
    {
      value := stored;
      clause := false;
      if Truthy(caller) && caller != stored {
        clause := true;
        value := stored + caller;
      }
    }

    /**
     * One counter of UpdateBuild: with InsertErrors, a stored -1 and an
     * increment of exactly 0 give 0 (the counter is then handled); otherwise
     * a -1 reads as 0 and a positive increment is added. `clause` says
     * whether the source emits a clause for the counter.
     */
    static method MergeCount(stored: int, n: int, insertErrors: bool) returns (value: int, clause: bool)
      ensures value == NewCount(stored, n, insertErrors)
      ensures clause <==> (insertErrors && stored == -1 && n == 0) || n > 0
    {
      value := stored;
      clause := false;
      var handled := false;
      if insertErrors {
        if stored == -1 && n == 0 {
          value := 0;
          clause := true;
          handled := true;
        }
      }
      if !handled {
        var num := stored;
        if num == -1 {
          num := 0;
        }
        if n > 0 {
          value := num + n;
          clause := true;
        }
      }
    }

    /** GetNumberOf{Failed,Passed,NotRun}Tests: the stored count, 0 when negative or when there is no row. */
    function NumberOfTests(db: Database, kind: TestKind): (n: int)
      reads this`Id, db
      ensures n >= 0
      ensures Id !in db.rows ==> n == 0
      ensures Id in db.rows ==> n == Clamp0(TestCount(db.rows[Id], kind))
      ensures Id in db.rows && TestCount(db.rows[Id], kind) >= 0 ==> n == TestCount(db.rows[Id], kind)
    {
      StoredTests(db.rows, Id, kind)
    }

    /**
     * GetNumberOfErrors / GetNumberOfWarnings: nothing without an id or a row;
     * otherwise the stored count with the -1 default read as 0.
     */
    function NumberOfErrors(db: Database, warnings: bool): (r: Option<int>)
      reads this`Id, db
      ensures r.None? <==> Id == 0 || Id !in db.rows
      ensures r.Some? ==>
        var v := if warnings then db.rows[Id].buildwarnings else db.rows[Id].builderrors;
        (v == -1 ==> r.value == 0) && (v != -1 ==> r.value == v)
    {
      if Id == 0 || Id !in db.rows then None
      else Some(Tally(if warnings then db.rows[Id].buildwarnings else db.rows[Id].builderrors))
    }
  }
}
