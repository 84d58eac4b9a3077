/**
 * The `build` table's row record and the pure rules that the `Build` model
 * applies to rows: the PHP truthiness of strings, the `-1` ("not computed")
 * sentinel, the uuid input string, the increment rule of UpdateBuild, the
 * walk up the parent chain, and the parent test/configure tallies.
 */
module BuildRow {
  import opened Pick

  datatype Option<T> = None | Some(value: T)

  /** PHP's truthiness of a string: both "" and "0" are false. */
  predicate Truthy(s: string) {
    s != "" && s != "0"
  }

  /** One row of the `build` table (with the build's subproject association). */
  datatype Row = Row(
    parentid: int,              // 0 standalone, -1 parent aggregate, > 0 id of the parent
    siteid: int,
    projectid: int,
    name: string,
    stamp: string,
    buildtype: string,
    uuid: string,
    subprojectid: Option<int>,  // the subproject2build association, if any
    builderrors: int,
    buildwarnings: int,
    testpassed: int,
    testfailed: int,
    testnotrun: int,
    configureerrors: int,
    configurewarnings: int,
    buildduration: int,
    configureduration: int,
    testtimestatusfailed: int,
    starttime: int,
    endtime: int,
    submittime: int,
    log: string,
    command: string,
    notified: bool)

  /** A counter read for arithmetic: the `-1` default counts as 0. */
  function Tally(v: int): int {
    if v == -1 then 0 else v
  }

  /** The GetNumberOf*Tests clamp: a negative stored count reads as 0. */
  function Clamp0(v: int): (r: int)
    ensures r >= 0 && r >= v
    ensures v >= 0 ==> r == v
    ensures v < 0 ==> r == 0
  {
    if v < 0 then 0 else v
  }

  /** The uuid column's unique key. */
  predicate UniqueUuids(rows: map<int, Row>) {
    forall a, b :: a in rows && b in rows && a != b ==> rows[a].uuid != rows[b].uuid
  }

  /** The new row Save inserts for a build (counters not given default to -1). */
  function NewBuildRow(siteid: int, projectid: int, stamp: string, name: string, buildtype: string,
                       starttime: int, endtime: int, submittime: int, command: string, log: string,
                       builderrors: int, buildwarnings: int, parentid: int, uuid: string, subprojectid: int): Row
  {
    Row(parentid, siteid, projectid, name, stamp, buildtype, uuid,
        if subprojectid != 0 then Some(subprojectid) else None,
        builderrors, buildwarnings, -1, -1, -1, -1, -1, 0, 0, -1, starttime, endtime, submittime, log, command, false)
  }

  // ---------------------------------------------------------------------
  // Picking one row
  // ---------------------------------------------------------------------

  /** Physical row order for the source's unordered "first row": lowest id first. */
  function ById(k: int): int {
    0
  }

  /** LookupParentBuildId's match: a parent aggregate with the same site, name and stamp. */
  predicate ParentOf(r: Row, siteid: int, name: string, stamp: string) {
    r.parentid == -1 && r.siteid == siteid && r.name == name && r.stamp == stamp
  }

  /**
   * LookupParentBuildId: 0 without a site, name and stamp; otherwise the
   * first parent aggregate with that site, name and stamp, or 0 when none.
   * The project is not compared.
   */
  ghost function ParentLookup(rows: map<int, Row>, siteid: int, name: string, stamp: string): (p: int)
    ensures siteid == 0 || !Truthy(name) || !Truthy(stamp) ==> p == 0
    ensures p != 0 ==> p in rows && ParentOf(rows[p], siteid, name, stamp)
    ensures p != 0 ==> forall k :: k in rows && ParentOf(rows[k], siteid, name, stamp) ==> p <= k
    ensures 0 !in rows && siteid != 0 && Truthy(name) && Truthy(stamp) ==>
      (p == 0 <==> forall k :: k in rows ==> !ParentOf(rows[k], siteid, name, stamp))
  {
    if siteid == 0 || !Truthy(name) || !Truthy(stamp) then 0
    else
      var s := set k | k in rows && ParentOf(rows[k], siteid, name, stamp);
      assert forall k :: k in rows && ParentOf(rows[k], siteid, name, stamp) ==> k in s;
      if exists k :: k in s then
        var m := Least(s, ById);
        assert forall k :: k in s ==> Precedes(ById, m, k);
        m
      else 0
  }

  /** A build CreateParentBuild may promote: standalone, same name, site, stamp and project. */
  predicate StandaloneTwin(r: Row, siteid: int, name: string, stamp: string, projectid: int) {
    r.parentid == 0 && r.siteid == siteid && r.name == name && r.stamp == stamp && r.projectid == projectid
  }

  ghost function TwinLookup(rows: map<int, Row>, siteid: int, name: string, stamp: string, projectid: int): (k: int)
    ensures k != 0 ==> k in rows && StandaloneTwin(rows[k], siteid, name, stamp, projectid)
    ensures 0 !in rows ==> (k == 0 <==> forall j :: j in rows ==> !StandaloneTwin(rows[j], siteid, name, stamp, projectid))
  {
    var s := set j | j in rows && StandaloneTwin(rows[j], siteid, name, stamp, projectid);
    assert forall j :: j in rows && StandaloneTwin(rows[j], siteid, name, stamp, projectid) ==> j in s;
    if exists j :: j in s then Least(s, ById) else 0
  }

  /** The row with a given uuid, or 0. */
  ghost function UuidLookup(rows: map<int, Row>, uuid: string): (k: int)
    ensures k != 0 ==> k in rows && rows[k].uuid == uuid
    ensures 0 !in rows ==> (k == 0 <==> forall j :: j in rows ==> rows[j].uuid != uuid)
    ensures UniqueUuids(rows) ==> forall j :: j in rows && rows[j].uuid == uuid ==> k == j
  {
    var s := set j | j in rows && rows[j].uuid == uuid;
    assert forall j :: j in rows && rows[j].uuid == uuid ==> j in s;
    if exists j :: j in s then Least(s, ById) else 0
  }

  /**
   * The straggler update after a parent is made: every standalone twin now
   * points to the parent; every other row is unchanged.
   */
  function Reparent(rows: map<int, Row>, pid: int, siteid: int, name: string, stamp: string, projectid: int): (rows': map<int, Row>)
    ensures rows'.Keys == rows.Keys
    ensures pid != 0 ==> forall k :: k in rows' ==> !StandaloneTwin(rows'[k], siteid, name, stamp, projectid)
    ensures forall k :: k in rows && !StandaloneTwin(rows[k], siteid, name, stamp, projectid) ==> rows'[k] == rows[k]
    ensures forall k :: k in rows ==> rows'[k] == rows[k].(parentid := rows'[k].parentid)
    ensures forall k :: k in rows && StandaloneTwin(rows[k], siteid, name, stamp, projectid) ==> rows'[k].parentid == pid
  {
    map k | k in rows :: if StandaloneTwin(rows[k], siteid, name, stamp, projectid) then rows[k].(parentid := pid) else rows[k]
  }

  /** Marks a row as a parent aggregate. */
  function Promote(rows: map<int, Row>, k: int): (rows': map<int, Row>)
    ensures rows'.Keys == rows.Keys
    ensures k in rows ==> rows'[k].parentid == -1
    ensures forall j :: j in rows ==> rows'[j] == rows[j].(parentid := rows'[j].parentid)
    ensures forall j :: j in rows && j != k ==> rows'[j] == rows[j]
  {
    if k in rows then rows[k := rows[k].(parentid := -1)] else rows
  }

  // ---------------------------------------------------------------------
  // Related builds
  // ---------------------------------------------------------------------

  datatype Direction = Previous | Next | Current

  /** What GetRelatedBuildId filters on, taken from the Build object. */
  datatype Criteria = Criteria(dir: Direction, starttime: int, subprojectid: int, parentsOnly: bool,
                               relatedParent: int, siteid: int, buildtype: string, name: string, projectid: int)

  /**
   * A candidate: the same subproject when one is set, a parent aggregate when
   * the build is one, then either the given parent or the same site, type,
   * name and project, and a start time before (previous) or after (next).
   */
  predicate Related(r: Row, c: Criteria) {
    && (c.subprojectid != 0 ==> r.subprojectid == Some(c.subprojectid))
    && (c.parentsOnly ==> r.parentid == -1)
    && (if c.relatedParent != 0 then r.parentid == c.relatedParent
        else r.siteid == c.siteid && r.buildtype == c.buildtype && r.name == c.name && r.projectid == c.projectid)
    && match c.dir
       case Previous => r.starttime < c.starttime
       case Next => r.starttime > c.starttime
       case Current => true
  }

  /** The sort key: latest start first for previous and current, earliest first for next. */
  function RankKey(rows: map<int, Row>, dir: Direction): int -> int {
    k => if k !in rows then 0 else if dir == Next then rows[k].starttime else -rows[k].starttime
  }

  /** The id GetRelatedBuildId returns: the first candidate in sort order, or 0. */
  ghost function RelatedBuildId(rows: map<int, Row>, c: Criteria): (r: int)
    ensures r != 0 ==> r in rows && Related(rows[r], c)
    ensures r != 0 && c.dir == Next ==>
      forall k :: k in rows && Related(rows[k], c) ==> rows[r].starttime <= rows[k].starttime
    ensures r != 0 && c.dir != Next ==>
      forall k :: k in rows && Related(rows[k], c) ==> rows[r].starttime >= rows[k].starttime
    ensures 0 !in rows ==> (r == 0 <==> forall k :: k in rows ==> !Related(rows[k], c))
  {
    var s := set k | k in rows && Related(rows[k], c);
    assert forall k :: k in rows && Related(rows[k], c) ==> k in s;
    if exists k :: k in s then
      var key := RankKey(rows, c.dir);
      var r := Least(s, key);
      assert forall k :: k in s ==> Precedes(key, r, k);
      assert forall k :: k in s ==> key(k) == if c.dir == Next then rows[k].starttime else -rows[k].starttime;
      r
    else 0
  }

  // ---------------------------------------------------------------------
  // Uuid input string
  // ---------------------------------------------------------------------

  function DigitChar(d: int): char
    requires 0 <= d < 10
  {
    ('0' as int + d) as char
  }

  predicate IsDigit(c: char) {
    '0' <= c <= '9'
  }

  /** Decimal text of a natural number, as PHP converts it in a string. */
  function NatToString(n: nat): (s: string)
    ensures |s| > 0 && (n < 10 <==> |s| == 1)
    decreases n
  {
    if n < 10 then [DigitChar(n)] else NatToString(n / 10) + [DigitChar(n % 10)]
  }

  /** The decimal text is made of digits only. */
  lemma {:induction false} NatToStringDigits(n: nat)
    ensures forall i :: 0 <= i < |NatToString(n)| ==> IsDigit(NatToString(n)[i])
    decreases n
  {
    if n >= 10 {
      NatToStringDigits(n / 10);
    }
  }

  /** Different numbers have different decimal texts. */
  lemma {:induction false} NatToStringInjective(a: nat, b: nat)
    ensures NatToString(a) == NatToString(b) ==> a == b
    decreases a
  {
    if NatToString(a) == NatToString(b) && a >= 10 && b >= 10 {
      var sa, sb := NatToString(a), NatToString(b);
      assert sa[|sa| - 1] == sb[|sb| - 1];
      assert a % 10 == b % 10;
      assert NatToString(a / 10) == sa[..|sa| - 1] == sb[..|sb| - 1] == NatToString(b / 10);
      NatToStringInjective(a / 10, b / 10);
    }
  }

  function IntToString(i: int): string {
    if i < 0 then "-" + NatToString(-i) else NatToString(i)
  }

  /** The part of the uuid input that does not depend on the subproject name. */
  function UuidPrefix(stamp: string, name: string, siteid: int, projectid: int): string {
    stamp + "_" + name + "_" + IntToString(siteid) + "_" + "_" + IntToString(projectid) + "_"
  }

  /** The string GenerateUuid hashes: stamp_name_siteid__projectid_subprojectname. */
  function UuidInput(stamp: string, name: string, siteid: int, projectid: int, subproject: string): string {
    stamp + "_" + name + "_" + IntToString(siteid) + "_" + "_" + IntToString(projectid) + "_" + subproject
  }

  /** The uuid input starts with the stamp and ends with the subproject name, each set off by an underscore. */
  lemma UuidInputShape(stamp: string, name: string, siteid: int, projectid: int, subproject: string)
    ensures var s := UuidInput(stamp, name, siteid, projectid, subproject);
      && |s| > |stamp| + |subproject| + 1
      && s[..|stamp|] == stamp && s[|stamp|] == '_'
      && s[|s| - |subproject| - 1] == '_' && s[|s| - |subproject|..] == subproject
  {
  }

  /** GenerateUuid: the digest (md5 in the source) of the input string. */
  function GenerateUuid(hash: string -> string, stamp: string, name: string, siteid: int,
                        projectid: int, subproject: string): string
  {
    hash(UuidInput(stamp, name, siteid, projectid, subproject))
  }

  /**
   * For one stamp, name, site and project, the uuid input determines the
   * subproject name; in particular a parent's input (empty subproject name)
   * differs from every child's.
   */
  lemma UuidInputDeterminesSubproject(stamp: string, name: string, siteid: int, projectid: int,
                                      a: string, b: string)
    ensures UuidInput(stamp, name, siteid, projectid, a) == UuidInput(stamp, name, siteid, projectid, b) <==> a == b
    ensures a != "" ==> UuidInput(stamp, name, siteid, projectid, "") != UuidInput(stamp, name, siteid, projectid, a)
  {
    var p := UuidPrefix(stamp, name, siteid, projectid);
    if UuidInput(stamp, name, siteid, projectid, a) == UuidInput(stamp, name, siteid, projectid, b) {
      assert a == (p + a)[|p|..];
      assert b == (p + b)[|p|..];
    }
    if a != "" {
      assert |p + a| != |p + ""|;
    }
  }

  /**
   * With a collision-free digest, a build's uuid is determined by its
   * subproject name among builds of one stamp, name, site and project: a
   * resubmitted build finds its own uuid again, and a parent (no subproject
   * name) never shares a uuid with one of its children.
   */
  lemma UuidSeparatesSubprojects(hash: string -> string, stamp: string, name: string, siteid: int, projectid: int,
                                 a: string, b: string)
    requires forall x, y :: hash(x) == hash(y) ==> x == y
    ensures GenerateUuid(hash, stamp, name, siteid, projectid, a) == GenerateUuid(hash, stamp, name, siteid, projectid, b) <==> a == b
    ensures a != "" ==> GenerateUuid(hash, stamp, name, siteid, projectid, "") != GenerateUuid(hash, stamp, name, siteid, projectid, a)
  {
    UuidInputDeterminesSubproject(stamp, name, siteid, projectid, a, b);
    UuidInputDeterminesSubproject(stamp, name, siteid, projectid, a, "");
  }

  /** The concatenation is not injective: names containing '_' can collide. */
  lemma UuidInputCollides()
    ensures UuidInput("a", "b_c", 1, 1, "") == UuidInput("a_b", "c", 1, 1, "")
  {
  }

  // ---------------------------------------------------------------------
  // The increment rule of UpdateBuild
  // ---------------------------------------------------------------------

  /** What one UpdateBuild call carries: the caller's flags, counts, times and text. */
  datatype Increment = Increment(
    insertErrors: bool,
    errors: int,
    warnings: int,
    starttime: int,
    endtime: int,
    log: string,
    command: string)

  /** The fields UpdateBuild may write. */
  datatype Field = BuildErrorsField | BuildWarningsField | StartTimeField | EndTimeField | LogField | CommandField

  /** The new value of an error or warning counter. */
  function NewCount(stored: int, n: int, insertErrors: bool): int {
    if insertErrors && stored == -1 && n == 0 then 0
    else if n > 0 then Tally(stored) + n
    else stored
  }

  /** The new value of log or command: append a non-empty, different caller text. */
  function Appended(stored: string, caller: string): string {
    if Truthy(caller) && caller != stored then stored + caller else stored
  }

  /** The row after one UpdateBuild step, field by field. */
  function ApplyUpdate(r: Row, u: Increment): Row
  {
    r.(builderrors := NewCount(r.builderrors, u.errors, u.insertErrors),
       buildwarnings := NewCount(r.buildwarnings, u.warnings, u.insertErrors),
       starttime := if r.starttime > u.starttime then u.starttime else r.starttime,
       endtime := if r.endtime < u.endtime then u.endtime else r.endtime,
       log := Appended(r.log, u.log),
       command := Appended(r.command, u.command))
  }

  /** Everything UpdateBuild never writes. */
  function Shape(r: Row): Row {
    r.(builderrors := 0, buildwarnings := 0, starttime := 0, endtime := 0, log := "", command := "")
  }

  predicate SameShape(a: Row, b: Row) {
    Shape(a) == Shape(b)
  }

  /** The clauses UpdateBuild emits for a stored row, as the source decides them. */
  function Clauses(r: Row, u: Increment): set<Field> {
    var errorsHandled := u.insertErrors && r.builderrors == -1 && u.errors == 0;
    var warningsHandled := u.insertErrors && r.buildwarnings == -1 && u.warnings == 0;
    (if errorsHandled || u.errors > 0 then {BuildErrorsField} else {})
    + (if warningsHandled || u.warnings > 0 then {BuildWarningsField} else {})
    + (if r.starttime > u.starttime then {StartTimeField} else {})
    + (if r.endtime < u.endtime then {EndTimeField} else {})
    + (if Truthy(u.log) && u.log != r.log then {LogField} else {})
    + (if Truthy(u.command) && u.command != r.command then {CommandField} else {})
  }

  /**
   * A clause is emitted for exactly the fields whose value changes, so when
   * there is no clause (nothing written) the row is unchanged.
   */
  lemma ClausesAreTheChanges(r: Row, u: Increment)
    ensures BuildErrorsField in Clauses(r, u) <==> ApplyUpdate(r, u).builderrors != r.builderrors
    ensures BuildWarningsField in Clauses(r, u) <==> ApplyUpdate(r, u).buildwarnings != r.buildwarnings
    ensures StartTimeField in Clauses(r, u) <==> ApplyUpdate(r, u).starttime != r.starttime
    ensures EndTimeField in Clauses(r, u) <==> ApplyUpdate(r, u).endtime != r.endtime
    ensures LogField in Clauses(r, u) <==> ApplyUpdate(r, u).log != r.log
    ensures CommandField in Clauses(r, u) <==> ApplyUpdate(r, u).command != r.command
    ensures Clauses(r, u) == {} <==> ApplyUpdate(r, u) == r
  {
    var r' := ApplyUpdate(r, u);
    if Truthy(u.log) && u.log != r.log {
      assert |r'.log| == |r.log| + |u.log| > |r.log|;
    }
    if Truthy(u.command) && u.command != r.command {
      assert |r'.command| == |r.command| + |u.command| > |r.command|;
    }
    if Clauses(r, u) == {} {
      assert BuildErrorsField !in Clauses(r, u) && BuildWarningsField !in Clauses(r, u);
      assert LogField !in Clauses(r, u) && CommandField !in Clauses(r, u);
      assert r' == r;
    }
    if r' == r {
      assert Clauses(r, u) == {};
    }
  }

  /**
   * The sentinel rule: an exact 0 with InsertErrors clears -1 to 0; a positive
   * increment adds to the stored count (-1 reading as 0); anything else leaves
   * the count alone. Hence a count never returns to -1, never decreases once
   * computed, and its tally grows by exactly the positive part of the increment.
   */
  lemma CounterRule(stored: int, n: int, insertErrors: bool)
    requires stored >= -1
    ensures insertErrors && stored == -1 && n == 0 ==> NewCount(stored, n, insertErrors) == 0
    ensures n > 0 ==> NewCount(stored, n, insertErrors) == Tally(stored) + n
    ensures n <= 0 && !(insertErrors && stored == -1 && n == 0) ==> NewCount(stored, n, insertErrors) == stored
    ensures NewCount(stored, n, insertErrors) >= -1
    ensures stored >= 0 ==> NewCount(stored, n, insertErrors) >= stored
    ensures Tally(NewCount(stored, n, insertErrors)) == Tally(stored) + (if n > 0 then n else 0)
  {
  }

  /**
   * One step writes only the six updated fields; the caller's times widen the
   * stored window; texts are only ever appended.
   */
  lemma WindowAndText(r: Row, u: Increment)
    ensures SameShape(r, ApplyUpdate(r, u))
    ensures ApplyUpdate(r, u).starttime <= r.starttime && ApplyUpdate(r, u).starttime <= u.starttime
    ensures ApplyUpdate(r, u).starttime in {r.starttime, u.starttime}
    ensures ApplyUpdate(r, u).endtime >= r.endtime && ApplyUpdate(r, u).endtime >= u.endtime
    ensures ApplyUpdate(r, u).endtime in {r.endtime, u.endtime}
    ensures ApplyUpdate(r, u).log == (if Truthy(u.log) && u.log != r.log then r.log + u.log else r.log)
    ensures ApplyUpdate(r, u).command == (if Truthy(u.command) && u.command != r.command then r.command + u.command else r.command)
    ensures r.log <= ApplyUpdate(r, u).log && r.command <= ApplyUpdate(r, u).command
  {
  }

  // ---------------------------------------------------------------------
  // The walk up the parent chain
  // ---------------------------------------------------------------------

  /** The table and the Build object's ParentId after an UpdateBuild call. */
  datatype Effect = Effect(rows: map<int, Row>, parentId: int)

  /**
   * UpdateBuild(b, ...) called on an object with id `self` and ParentId `pid`:
   * update row b, then, if its parentid is positive and not b itself, update
   * the parent with the same increment; when b is the object's own id its
   * ParentId becomes that parent. `fuel` bounds the number of parent steps.
   */
  function UpdateChain(rows: map<int, Row>, b: int, u: Increment, self: int, pid: int, fuel: nat): (e: Effect)
    ensures e.rows.Keys == rows.Keys
    decreases fuel
  {
    if b < 1 || b !in rows then Effect(rows, pid)
    else
      var rows' := rows[b := ApplyUpdate(rows[b], u)];
      var p := rows[b].parentid;
      if p <= 0 || p == b || fuel == 0 then Effect(rows', pid)
      else
        var e := UpdateChain(rows', p, u, self, pid, fuel - 1);
        Effect(e.rows, if b == self then p else e.parentId)
  }

  /** The ids UpdateChain updates, in order. */
  function Path(rows: map<int, Row>, b: int, fuel: nat): seq<int>
    decreases fuel
  {
    if b < 1 || b !in rows then []
    else
      var p := rows[b].parentid;
      if p <= 0 || p == b || fuel == 0 then [b] else [b] + Path(rows, p, fuel - 1)
  }

  /** The walk from b stops by itself within n parent steps. */
  predicate ChainEnds(rows: map<int, Row>, b: int, n: nat)
    decreases n
  {
    b < 1 || b !in rows || rows[b].parentid <= 0 || rows[b].parentid == b
    || (n > 0 && ChainEnds(rows, rows[b].parentid, n - 1))
  }

  predicate SameLinks(rows: map<int, Row>, rows': map<int, Row>) {
    rows.Keys == rows'.Keys && forall k :: k in rows ==> rows[k].parentid == rows'[k].parentid
  }

  lemma {:induction false} PathOnSameLinks(rows: map<int, Row>, rows': map<int, Row>, b: int, fuel: nat)
    requires SameLinks(rows, rows')
    ensures Path(rows, b, fuel) == Path(rows', b, fuel)
    ensures ChainEnds(rows, b, fuel) == ChainEnds(rows', b, fuel)
    decreases fuel
  {
    if b >= 1 && b in rows && rows[b].parentid > 0 && rows[b].parentid != b && fuel > 0 {
      PathOnSameLinks(rows, rows', rows[b].parentid, fuel - 1);
    }
  }

  lemma LinksAfterUpdate(rows: map<int, Row>, b: int, u: Increment)
    requires b in rows
    ensures SameLinks(rows, rows[b := ApplyUpdate(rows[b], u)])
  {
  }

  predicate NoRepeats(s: seq<int>) {
    forall i, j :: 0 <= i < j < |s| ==> s[i] != s[j]
  }

  /** Without repeats in b followed by tail, the tail has none and lacks b. */
  lemma NoRepeatsTail(b: int, tail: seq<int>)
    requires NoRepeats([b] + tail)
    ensures NoRepeats(tail) && b !in tail
  {
    var whole := [b] + tail;
    forall i, j | 0 <= i < j < |tail|
      ensures tail[i] != tail[j]
    {
      assert whole[i + 1] == tail[i];
      assert whole[j + 1] == tail[j];
    }
    forall i | 0 <= i < |tail| ensures tail[i] != b {
      assert whole[i + 1] == tail[i] && whole[0] == b;
    }
  }

  /**
   * When the ids on the walk are distinct, every row on it receives the
   * increment exactly once and every other row is untouched.
   */
  lemma {:induction false} ChainUpdatesEachRowOnce(rows: map<int, Row>, b: int, u: Increment, self: int, pid: int, fuel: nat)
    requires NoRepeats(Path(rows, b, fuel))
    ensures forall k :: k in rows ==>
      UpdateChain(rows, b, u, self, pid, fuel).rows[k] == if k in Path(rows, b, fuel) then ApplyUpdate(rows[k], u) else rows[k]
    decreases fuel
  {
    if b >= 1 && b in rows {
      var rows' := rows[b := ApplyUpdate(rows[b], u)];
      var p := rows[b].parentid;
      if p > 0 && p != b && fuel > 0 {
        LinksAfterUpdate(rows, b, u);
        PathOnSameLinks(rows, rows', p, fuel - 1);
        var tail := Path(rows, p, fuel - 1);
        var whole := Path(rows, b, fuel);
        assert whole == [b] + tail;
        NoRepeatsTail(b, tail);
        ChainUpdatesEachRowOnce(rows', p, u, self, pid, fuel - 1);
        var e := UpdateChain(rows', p, u, self, pid, fuel - 1);
        assert UpdateChain(rows, b, u, self, pid, fuel).rows == e.rows;
        forall k | k in rows
          ensures e.rows[k] == if k in whole then ApplyUpdate(rows[k], u) else rows[k]
        {
          assert k in whole <==> k == b || k in tail;
        }
      }
    }
  }

  /** Along the whole walk, no row changes outside the six fields UpdateBuild writes. */
  lemma {:induction false} ChainKeepsShape(rows: map<int, Row>, b: int, u: Increment, self: int, pid: int, fuel: nat)
    ensures forall k :: k in rows ==> SameShape(rows[k], UpdateChain(rows, b, u, self, pid, fuel).rows[k])
    decreases fuel
  {
    if b >= 1 && b in rows {
      var rows' := rows[b := ApplyUpdate(rows[b], u)];
      WindowAndText(rows[b], u);
      var p := rows[b].parentid;
      if p > 0 && p != b && fuel > 0 {
        ChainKeepsShape(rows', p, u, self, pid, fuel - 1);
      }
    }
  }

  /** A walk that stops by itself within n steps gives the same result for any fuel of at least n. */
  lemma {:induction false} ChainFuelIrrelevant(rows: map<int, Row>, b: int, u: Increment, self: int, pid: int, n: nat, f1: nat, f2: nat)
    requires ChainEnds(rows, b, n) && n <= f1 && n <= f2
    ensures UpdateChain(rows, b, u, self, pid, f1) == UpdateChain(rows, b, u, self, pid, f2)
    decreases n
  {
    if b >= 1 && b in rows {
      var rows' := rows[b := ApplyUpdate(rows[b], u)];
      var p := rows[b].parentid;
      if p > 0 && p != b {
        assert n > 0 && ChainEnds(rows, p, n - 1);
        LinksAfterUpdate(rows, b, u);
        PathOnSameLinks(rows, rows', p, n - 1);
        ChainFuelIrrelevant(rows', p, u, self, pid, n - 1, f1 - 1, f2 - 1);
      }
    }
  }

  /**
   * UpdateBuild(id, -1, -1) (the dynamic-analysis handler's call) never
   * changes an error or warning count anywhere on the walk.
   */
  lemma {:induction false} MinusOneKeepsCounts(rows: map<int, Row>, b: int, u: Increment, self: int, pid: int, fuel: nat)
    requires u.errors == -1 && u.warnings == -1
    ensures forall k :: k in rows ==>
      UpdateChain(rows, b, u, self, pid, fuel).rows[k].builderrors == rows[k].builderrors
      && UpdateChain(rows, b, u, self, pid, fuel).rows[k].buildwarnings == rows[k].buildwarnings
    decreases fuel
  {
    if b >= 1 && b in rows {
      var rows' := rows[b := ApplyUpdate(rows[b], u)];
      var p := rows[b].parentid;
      if p > 0 && p != b && fuel > 0 {
        MinusOneKeepsCounts(rows', p, u, self, pid, fuel - 1);
      }
    }
  }

  /** Along the whole walk a computed count (>= 0) never decreases, so it never returns to -1. */
  lemma {:induction false} ChainCountsMonotone(rows: map<int, Row>, b: int, u: Increment, self: int, pid: int, fuel: nat)
    ensures forall k :: k in rows && rows[k].builderrors >= 0 ==>
      UpdateChain(rows, b, u, self, pid, fuel).rows[k].builderrors >= rows[k].builderrors
    ensures forall k :: k in rows && rows[k].buildwarnings >= 0 ==>
      UpdateChain(rows, b, u, self, pid, fuel).rows[k].buildwarnings >= rows[k].buildwarnings
    decreases fuel
  {
    if b >= 1 && b in rows {
      var rows' := rows[b := ApplyUpdate(rows[b], u)];
      var p := rows[b].parentid;
      if p > 0 && p != b && fuel > 0 {
        ChainCountsMonotone(rows', p, u, self, pid, fuel - 1);
      }
    }
  }

  /**
   * A child whose parent is a parent aggregate: one call updates the child
   * and the parent with the same increment, and the object's ParentId becomes
   * the parent when the child is the object's own build.
   */
  lemma ChildAndParentUpdated(rows: map<int, Row>, b: int, u: Increment, self: int, pid: int, fuel: nat)
    requires b >= 1 && b in rows
    requires rows[b].parentid > 0 && rows[b].parentid != b && rows[b].parentid in rows
    requires rows[rows[b].parentid].parentid <= 0 && fuel >= 1
    ensures var p := rows[b].parentid;
      UpdateChain(rows, b, u, self, pid, fuel)
        == Effect(rows[b := ApplyUpdate(rows[b], u)][p := ApplyUpdate(rows[p], u)], if b == self then p else pid)
  {
  }

  // ---------------------------------------------------------------------
  // Parent test and configure tallies
  // ---------------------------------------------------------------------

  /** UpdateParentTestNumbers on the parent row: each field becomes its tally plus the delta. */
  function AddTestNumbers(p: Row, newFailed: int, newNotRun: int, newPassed: int): (p': Row)
    ensures p'.parentid == p.parentid && p'.uuid == p.uuid
    ensures p'.(testfailed := p.testfailed, testnotrun := p.testnotrun, testpassed := p.testpassed) == p
    ensures p.testfailed == -1 ==> p'.testfailed == newFailed
    ensures p.testnotrun == -1 ==> p'.testnotrun == newNotRun
    ensures p.testpassed == -1 ==> p'.testpassed == newPassed
    ensures p.testfailed != -1 ==> p'.testfailed == p.testfailed + newFailed
    ensures p.testnotrun != -1 ==> p'.testnotrun == p.testnotrun + newNotRun
    ensures p.testpassed != -1 ==> p'.testpassed == p.testpassed + newPassed
    ensures newFailed >= 0 ==> p'.testfailed >= p.testfailed
    ensures newNotRun >= 0 ==> p'.testnotrun >= p.testnotrun
    ensures newPassed >= 0 ==> p'.testpassed >= p.testpassed
  {
    p.(testfailed := newFailed + Tally(p.testfailed),
       testnotrun := newNotRun + Tally(p.testnotrun),
       testpassed := newPassed + Tally(p.testpassed))
  }

  /** UpdateParentConfigureNumbers on the parent row. */
  function AddConfigureNumbers(p: Row, newWarnings: int, newErrors: int): (p': Row)
    ensures p'.parentid == p.parentid && p'.uuid == p.uuid
    ensures p'.(configureerrors := p.configureerrors, configurewarnings := p.configurewarnings) == p
    ensures p.configureerrors == -1 ==> p'.configureerrors == newErrors
    ensures p.configurewarnings == -1 ==> p'.configurewarnings == newWarnings
    ensures p.configureerrors != -1 ==> p'.configureerrors == p.configureerrors + newErrors
    ensures p.configurewarnings != -1 ==> p'.configurewarnings == p.configurewarnings + newWarnings
    ensures newErrors >= 0 ==> p'.configureerrors >= p.configureerrors
    ensures newWarnings >= 0 ==> p'.configurewarnings >= p.configurewarnings
  {
    p.(configureerrors := newErrors + Tally(p.configureerrors),
       configurewarnings := newWarnings + Tally(p.configurewarnings))
  }

  /** The parent row after the configure counts (warnings, errors) of a series of children, in order. */
  function ConfiguresAdded(p: Row, counts: seq<(int, int)>): (p': Row)
    ensures p'.parentid == p.parentid && p'.uuid == p.uuid
    decreases |counts|
  {
    if counts == [] then p else ConfiguresAdded(AddConfigureNumbers(p, counts[0].0, counts[0].1), counts[1..])
  }

  /** The total warnings and the total errors of a series of configure counts. */
  function ConfigureSums(counts: seq<(int, int)>): (int, int) {
    if counts == [] then (0, 0)
    else
      var rest := ConfigureSums(counts[1..]);
      (counts[0].0 + rest.0, counts[0].1 + rest.1)
  }

  /**
   * UpdateParentConfigureNumbers keeps a parent's configure tallies equal to
   * the sum of what its children reported: starting from a tally that is not
   * negative (the -1 default reads as 0), after a series of children's
   * non-negative counts the tallies are the starting ones plus the sums.
   */
  lemma {:induction false} ConfigureTallyStaysSum(p: Row, counts: seq<(int, int)>)
    requires Tally(p.configureerrors) >= 0 && Tally(p.configurewarnings) >= 0
    requires forall i :: 0 <= i < |counts| ==> counts[i].0 >= 0 && counts[i].1 >= 0
    ensures var p' := ConfiguresAdded(p, counts);
      && Tally(p'.configurewarnings) == Tally(p.configurewarnings) + ConfigureSums(counts).0
      && Tally(p'.configureerrors) == Tally(p.configureerrors) + ConfigureSums(counts).1
    decreases |counts|
  {
    if counts != [] {
      var q := AddConfigureNumbers(p, counts[0].0, counts[0].1);
      assert Tally(q.configurewarnings) == Tally(p.configurewarnings) + counts[0].0;
      assert Tally(q.configureerrors) == Tally(p.configureerrors) + counts[0].1;
      forall i | 0 <= i < |counts[1..]| ensures counts[1..][i].0 >= 0 && counts[1..][i].1 >= 0 {
        assert counts[1..][i] == counts[i + 1];
      }
      ConfigureTallyStaysSum(q, counts[1..]);
    }
  }

  /**
   * UpdateParentConfigureNumbers on the table: a parent id p below 1, or
   * one without a row, changes nothing; otherwise that row's configure
   * tallies take the deltas and nothing else changes.
   */
  function ParentConfigureAdded(rows: map<int, Row>, p: int, newWarnings: int, newErrors: int): (rows': map<int, Row>)
    ensures rows'.Keys == rows.Keys
    ensures forall k :: k in rows && k != p ==> rows'[k] == rows[k]
    ensures p < 1 ==> rows' == rows
    ensures forall k :: k in rows ==> rows'[k].uuid == rows[k].uuid && rows'[k].parentid == rows[k].parentid
  {
    if p >= 1 && p in rows
    then rows[p := AddConfigureNumbers(rows[p], newWarnings, newErrors)]
    else rows
  }

  /** The child's own test counts after UpdateTestNumbers. */
  function SetTestNumbers(c: Row, passed: int, failed: int, notRun: int): Row {
    c.(testpassed := passed, testfailed := failed, testnotrun := notRun)
  }

  datatype TestKind = Failed | Passed | NotRun

  /** A test count column of a row. */
  function TestCount(r: Row, kind: TestKind): int {
    match kind
    case Failed => r.testfailed
    case Passed => r.testpassed
    case NotRun => r.testnotrun
  }

  /** A stored test count as GetNumberOf*Tests reads it: 0 without a row, negative counts read as 0. */
  function StoredTests(rows: map<int, Row>, b: int, kind: TestKind): (n: int)
    ensures n >= 0
    ensures b !in rows ==> n == 0
    ensures b in rows ==> n == Clamp0(TestCount(rows[b], kind)) && (TestCount(rows[b], kind) >= 0 ==> n == TestCount(rows[b], kind))
  {
    if b !in rows then 0 else Clamp0(TestCount(rows[b], kind))
  }

  /**
   * The table after UpdateTestNumbers (before any notification): parent p
   * receives the differences between the new counts and build b's stored
   * ones, then b's counts are overwritten.
   */
  function TestNumbersAfter(rows: map<int, Row>, p: int, b: int, passed: int, failed: int, notRun: int): (rows': map<int, Row>)
    ensures rows'.Keys == rows.Keys
    ensures forall k :: k in rows ==> rows'[k].uuid == rows[k].uuid && rows'[k].parentid == rows[k].parentid
    ensures UniqueUuids(rows) ==> UniqueUuids(rows')
  {
    var d := TestDeltas(rows, b, passed, failed, notRun);
    ChildTestsSet(ParentTestsAdded(rows, p, d.0, d.1, d.2), b, passed, failed, notRun)
  }

  /** The differences UpdateTestNumbers hands to the parent: failed, not run and passed, against b's stored counts. */
  function TestDeltas(rows: map<int, Row>, b: int, passed: int, failed: int, notRun: int): (int, int, int) {
    (failed - StoredTests(rows, b, Failed), notRun - StoredTests(rows, b, NotRun), passed - StoredTests(rows, b, Passed))
  }

  /** The second half of UpdateTestNumbers: build b's own counts are overwritten, when it has a row. */
  function ChildTestsSet(rows: map<int, Row>, b: int, passed: int, failed: int, notRun: int): (rows': map<int, Row>)
    ensures rows'.Keys == rows.Keys
    ensures forall k :: k in rows ==> rows'[k].uuid == rows[k].uuid && rows'[k].parentid == rows[k].parentid
    ensures forall k :: k in rows && k != b ==> rows'[k] == rows[k]
    ensures b in rows ==> rows'[b].testpassed == passed && rows'[b].testfailed == failed && rows'[b].testnotrun == notRun
  {
    if b in rows then rows[b := SetTestNumbers(rows[b], passed, failed, notRun)] else rows
  }

  /**
   * UpdateParentTestNumbers on the table: a parent id p below 1, or one
   * without a row, changes nothing; otherwise that row's test tallies take
   * the deltas and nothing else changes.
   */
  function ParentTestsAdded(rows: map<int, Row>, p: int, newFailed: int, newNotRun: int, newPassed: int): (rows': map<int, Row>)
    ensures rows'.Keys == rows.Keys
    ensures forall k :: k in rows && k != p ==> rows'[k] == rows[k]
    ensures p < 1 ==> rows' == rows
    ensures forall k :: k in rows ==> rows'[k].uuid == rows[k].uuid && rows'[k].parentid == rows[k].parentid
  {
    if p >= 1 && p in rows
    then rows[p := AddTestNumbers(rows[p], newFailed, newNotRun, newPassed)]
    else rows
  }

  /**
   * UpdateTestNumbers keeps a parent's test tallies equal to the sum of its
   * children's: if the parent's tally was `others` plus this child's clamped
   * count, then after the update it is `others` plus the child's new count.
   */
  lemma TestTallyStaysSum(p: Row, c: Row, passed: int, failed: int, notRun: int,
                          otherPassed: int, otherFailed: int, otherNotRun: int)
    requires passed >= 0 && failed >= 0 && notRun >= 0
    requires otherPassed >= 0 && otherFailed >= 0 && otherNotRun >= 0
    requires Tally(p.testpassed) == otherPassed + Clamp0(c.testpassed)
    requires Tally(p.testfailed) == otherFailed + Clamp0(c.testfailed)
    requires Tally(p.testnotrun) == otherNotRun + Clamp0(c.testnotrun)
    ensures var p' := AddTestNumbers(p, failed - Clamp0(c.testfailed), notRun - Clamp0(c.testnotrun), passed - Clamp0(c.testpassed));
      && p'.testpassed == otherPassed + passed
      && p'.testfailed == otherFailed + failed
      && p'.testnotrun == otherNotRun + notRun
  {
  }

  /**
   * Re-submitting the same test numbers changes neither the parent nor the
   * child a second time (the delta is then zero), provided the parent already
   * covered the child's count.
   */
  lemma {:induction false} TestNumbersIdempotent(p: Row, c: Row, passed: int, failed: int, notRun: int)
    requires passed >= 0 && failed >= 0 && notRun >= 0
    requires Tally(p.testpassed) >= Clamp0(c.testpassed)
    requires Tally(p.testfailed) >= Clamp0(c.testfailed)
    requires Tally(p.testnotrun) >= Clamp0(c.testnotrun)
    ensures var p1 := AddTestNumbers(p, failed - Clamp0(c.testfailed), notRun - Clamp0(c.testnotrun), passed - Clamp0(c.testpassed));
      var c1 := SetTestNumbers(c, passed, failed, notRun);
      var p2 := AddTestNumbers(p1, failed - Clamp0(c1.testfailed), notRun - Clamp0(c1.testnotrun), passed - Clamp0(c1.testpassed));
      p2 == p1 && SetTestNumbers(c1, passed, failed, notRun) == c1
  {
    var p1 := AddTestNumbers(p, failed - Clamp0(c.testfailed), notRun - Clamp0(c.testnotrun), passed - Clamp0(c.testpassed));
    assert p1.testpassed >= 0 && p1.testfailed >= 0 && p1.testnotrun >= 0;
    assert Tally(p1.testpassed) == p1.testpassed;
    assert Tally(p1.testfailed) == p1.testfailed;
    assert Tally(p1.testnotrun) == p1.testnotrun;
  }

  // ---------------------------------------------------------------------
  // A new parent row
  // ---------------------------------------------------------------------

  /** The parent row CreateParentBuild inserts, as written: seeded with the child's counts. */
  function NewParentRowAsWritten(siteid: int, projectid: int, stamp: string, name: string, buildtype: string,
                                 starttime: int, endtime: int, submittime: int, uuid: string,
                                 numErrors: int, numWarnings: int): (r: Row)
    ensures r.parentid == -1 && r.builderrors == numErrors && r.buildwarnings == numWarnings
  {
    Row(-1, siteid, projectid, name, stamp, buildtype, uuid, None, numErrors, numWarnings,
        -1, -1, -1, -1, -1, 0, 0, -1, starttime, endtime, submittime, "", "", false)
  }

  /** The parent row as intended: zero counts, which the following increment then fills once. */
  function NewParentRow(siteid: int, projectid: int, stamp: string, name: string, buildtype: string,
                        starttime: int, endtime: int, submittime: int, uuid: string): (r: Row)
    ensures r.parentid == -1 && r.uuid == uuid && r.builderrors == 0 && r.buildwarnings == 0
    ensures r.siteid == siteid && r.projectid == projectid && r.stamp == stamp && r.name == name
  {
    NewParentRowAsWritten(siteid, projectid, stamp, name, buildtype, starttime, endtime, submittime, uuid, 0, 0)
  }

  /**
   * As written, a freshly inserted parent already holds the child's counts and
   * the increment that follows adds them again: a child with n > 0 errors
   * gives a parent with 2n (2 errors give 4).
   */
  lemma ParentDoubleCountedAsWritten(r: Row, u: Increment)
    requires u.errors > 0
    requires r == NewParentRowAsWritten(r.siteid, r.projectid, r.stamp, r.name, r.buildtype,
                                        r.starttime, r.endtime, r.submittime, r.uuid, u.errors, u.warnings)
    ensures ApplyUpdate(r, u).builderrors == 2 * u.errors
    ensures u.warnings > 0 ==> ApplyUpdate(r, u).buildwarnings == 2 * u.warnings
  {
  }

  /** With the zero-seeded row, the new parent's counts equal the child's (clamped) counts. */
  lemma NewParentCountsOnce(siteid: int, projectid: int, stamp: string, name: string, buildtype: string,
                            starttime: int, endtime: int, submittime: int, uuid: string, u: Increment)
    requires u.errors >= 0 && u.warnings >= 0
    ensures var r := ApplyUpdate(NewParentRow(siteid, projectid, stamp, name, buildtype, starttime, endtime, submittime, uuid), u);
      r.builderrors == u.errors && r.buildwarnings == u.warnings
  {
  }

  // ---------------------------------------------------------------------
  // Parent links
  // ---------------------------------------------------------------------

  /** SetParentId's rule: a positive id equal to the build's own is refused, anything else stored. */
  function ParentAfterSet(current: int, p: int, self: int): (r: int)
    ensures r == p || r == current
    ensures p > 0 && p == self ==> r == current
    ensures !(p > 0 && p == self) ==> r == p
  {
    if p > 0 && p == self then current else p
  }

  /**
   * However often SetParentId is called, a build that does not already point
   * to itself never comes to point to itself.
   */
  lemma {:induction false} NeverOwnParent(current: int, ps: seq<int>, self: int)
    requires self > 0 ==> current != self
    ensures var r := SetAll(current, ps, self); self > 0 ==> r != self
    decreases |ps|
  {
    if ps != [] {
      NeverOwnParent(ParentAfterSet(current, ps[0], self), ps[1..], self);
    }
  }

  /** The ParentId after a series of SetParentId calls. */
  function SetAll(current: int, ps: seq<int>, self: int): int
    decreases |ps|
  {
    if ps == [] then current else SetAll(ParentAfterSet(current, ps[0], self), ps[1..], self)
  }

  /** The rows that already are parent aggregates for a site, name and stamp stay so under the given step. */
  predicate ParentsKept(rows: map<int, Row>, rows': map<int, Row>, siteid: int, name: string, stamp: string) {
    forall k :: k in rows && ParentOf(rows[k], siteid, name, stamp) ==> k in rows' && ParentOf(rows'[k], siteid, name, stamp)
  }

  /**
   * An UpdateBuild walk and a straggler update keep every parent aggregate
   * what it is, so once a parent exists, LookupParentBuildId finds one.
   */
  lemma ParentSurvives(rows: map<int, Row>, b: int, u: Increment, self: int, pid: int, fuel: nat,
                       p: int, siteid: int, name: string, stamp: string, projectid: int, k: int)
    requires k in rows && ParentOf(rows[k], siteid, name, stamp)
    ensures var rows' := Reparent(UpdateChain(rows, b, u, self, pid, fuel).rows, p, siteid, name, stamp, projectid);
      k in rows' && ParentOf(rows'[k], siteid, name, stamp)
  {
    ChainKeepsShape(rows, b, u, self, pid, fuel);
    var e := UpdateChain(rows, b, u, self, pid, fuel);
    assert SameShape(rows[k], e.rows[k]);
    assert Shape(rows[k]).parentid == rows[k].parentid;
  }

  /** With a parent aggregate present, the lookup (given a site, name and stamp) is not 0. */
  lemma LookupFindsParent(rows: map<int, Row>, siteid: int, name: string, stamp: string, k: int)
    requires 0 !in rows && siteid != 0 && Truthy(name) && Truthy(stamp)
    requires k in rows && ParentOf(rows[k], siteid, name, stamp)
    ensures ParentLookup(rows, siteid, name, stamp) != 0
  {
  }

  /** UpdateBuild's walk keeps every uuid, so the uuid key stays unique. */
  lemma ChainKeepsUuids(rows: map<int, Row>, b: int, u: Increment, self: int, pid: int, fuel: nat)
    requires UniqueUuids(rows)
    ensures UniqueUuids(UpdateChain(rows, b, u, self, pid, fuel).rows)
    ensures forall k :: k in rows ==> UpdateChain(rows, b, u, self, pid, fuel).rows[k].uuid == rows[k].uuid
  {
    ChainKeepsShape(rows, b, u, self, pid, fuel);
    var e := UpdateChain(rows, b, u, self, pid, fuel);
    forall k | k in rows ensures e.rows[k].uuid == rows[k].uuid {
      assert Shape(rows[k]).uuid == rows[k].uuid && Shape(e.rows[k]).uuid == e.rows[k].uuid;
    }
  }

  // ---------------------------------------------------------------------
  // Durations and the notification flag
  // ---------------------------------------------------------------------

  /** The buildtesttime upsert: a first duration is inserted, a later one added. */
  function AddTime(times: map<int, int>, b: int, d: int): (times': map<int, int>)
    ensures times'.Keys == times.Keys + {b}
    ensures times'[b] == (if b in times then times[b] else 0) + d
    ensures forall k :: k in times && k != b ==> times'[k] == times[k]
  {
    if b in times then times[b := times[b] + d] else times[b := d]
  }

  /** Durations saved one after another add up: the total is their sum. */
  lemma {:induction false} TimesAddUp(times: map<int, int>, b: int, ds: seq<int>)
    ensures var t := AddAllTimes(times, b, ds); b in t || ds == []
    ensures ds != [] ==> AddAllTimes(times, b, ds)[b] == (if b in times then times[b] else 0) + Sum(ds)
    ensures forall k :: k in times && k != b ==> k in AddAllTimes(times, b, ds) && AddAllTimes(times, b, ds)[k] == times[k]
    decreases |ds|
  {
    if ds != [] {
      TimesAddUp(AddTime(times, b, ds[0]), b, ds[1..]);
      if ds[1..] == [] {
        assert Sum(ds) == ds[0];
      }
    }
  }

  function AddAllTimes(times: map<int, int>, b: int, ds: seq<int>): map<int, int>
    decreases |ds|
  {
    if ds == [] then times else AddAllTimes(AddTime(times, b, ds[0]), b, ds[1..])
  }

  function Sum(ds: seq<int>): int
    decreases |ds|
  {
    if ds == [] then 0 else ds[0] + Sum(ds[1..])
  }

  /** Sets row b's configure duration to d, when there is such a row. */
  function ConfigureDurationSet(rows: map<int, Row>, b: int, d: int): (rows': map<int, Row>)
    ensures rows'.Keys == rows.Keys
    ensures forall k :: k in rows && k != b ==> rows'[k] == rows[k]
    ensures b in rows ==> rows'[b].configureduration == d
    ensures UniqueUuids(rows) ==> UniqueUuids(rows')
  {
    if b in rows then rows[b := rows[b].(configureduration := d)] else rows
  }

  /** Adds d to a duration column of row b, when there is such a row. */
  function AddDuration(rows: map<int, Row>, b: int, d: int, configure: bool): (rows': map<int, Row>)
    ensures rows'.Keys == rows.Keys
    ensures forall k :: k in rows && k != b ==> rows'[k] == rows[k]
    ensures b in rows && configure ==> rows'[b] == rows[b].(configureduration := rows[b].configureduration + d)
    ensures b in rows && !configure ==> rows'[b] == rows[b].(buildduration := rows[b].buildduration + d)
    ensures UniqueUuids(rows) ==> UniqueUuids(rows')
  {
    if b !in rows then rows
    else if configure then rows[b := rows[b].(configureduration := rows[b].configureduration + d)]
    else rows[b := rows[b].(buildduration := rows[b].buildduration + d)]
  }

  /** Whom NotifyPullRequest speaks for: the parent when there is one, else the build itself. */
  function NotifyTarget(parentId: int, id: int): int {
    if parentId > 0 then parentId else id
  }

  /** NotifyPullRequest posts only for an existing row not yet notified (a missing row reads as notified). */
  predicate Sends(rows: map<int, Row>, t: int) {
    t in rows && !rows[t].notified
  }

  /** The check-then-set on the notified flag. */
  function MarkNotified(rows: map<int, Row>, t: int): (rows': map<int, Row>)
    ensures rows'.Keys == rows.Keys
    ensures !Sends(rows', t)
    ensures forall k :: k in rows && k != t ==> rows'[k] == rows[k]
    ensures forall k :: k in rows ==> rows'[k].uuid == rows[k].uuid
    ensures UniqueUuids(rows) ==> UniqueUuids(rows')
  {
    if Sends(rows, t) then rows[t := rows[t].(notified := true)] else rows
  }

  /** How many of a series of notification attempts post a comment for target t. */
  function PostsFor(rows: map<int, Row>, targets: seq<int>, t: int): nat
    decreases |targets|
  {
    if targets == [] then 0
    else (if targets[0] == t && Sends(rows, t) then 1 else 0) + PostsFor(MarkNotified(rows, targets[0]), targets[1..], t)
  }

  /**
   * The notification gate: over any series of attempts, each build (or its
   * parent) is posted about at most once, and never once it is marked.
   */
  lemma {:induction false} AtMostOnePost(rows: map<int, Row>, targets: seq<int>, t: int)
    ensures PostsFor(rows, targets, t) <= 1
    ensures !Sends(rows, t) ==> PostsFor(rows, targets, t) == 0
    decreases |targets|
  {
    if targets != [] {
      var rows' := MarkNotified(rows, targets[0]);
      AtMostOnePost(rows', targets[1..], t);
      if targets[0] == t {
        assert !Sends(rows', t);
      } else if !Sends(rows, t) {
        assert rows'.Keys == rows.Keys;
        assert t in rows' ==> rows'[t] == rows[t];
      }
    }
  }
}
