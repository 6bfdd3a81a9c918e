/**
 * The liveness sweep of the garbage collector. On every tick it probes each
 * Agent and then each Position (cube) with a ping, collects the quoted
 * UUIDs of those that do not answer "pong", deletes them from their table
 * in one statement when there are any, and finally deletes every Obstacle
 * not updated in the last four hours.
 *
 * The database tables are sequences of rows, the HTTP call is a probe
 * function, and time is an integer number of seconds.
 */
module GarbageCollector {
  import opened GoStrings

  /** A row of the Agents or Positions table: its key and the URL it answers on. */
  datatype Entity = Entity(uuid: string, permURL: string)

  /** What a call to an in-world object gives back: a reply body, or a failure. */
  datatype CallResult = CallResult(reply: string, failed: bool)

  /** The call to an object: (URL, request body) to its result. */
  type Probe = (string, string) -> CallResult

  /** A row of the Obstacles table; `lastUpdate` is in seconds. */
  datatype Obstacle = Obstacle(uuid: string, lastUpdate: int)

  /** The two tables whose rows are probed. */
  datatype ProbedTable = Agents | Positions

  const PingCommand: string := "command=ping"

  /** Four hours, in seconds: obstacles older than this are dropped. */
  const MaxAge: int := 4 * 60 * 60

  const ObstacleStatement: string :=
    "DELETE FROM `Obstacles` WHERE `LastUpdate` < ADDDATE(NOW(), INTERVAL -4 HOUR)"

  /** A row is to be deleted when its ping fails or is answered by anything but "pong". */
  predicate Unresponsive(e: Entity, probe: Probe) {
    var result := probe(e.permURL, PingCommand);
    result.failed || result.reply != "pong"
  }

  /** The SQL string literal for a UUID. */
  function Quote(uuid: string): string {
    "'" + uuid + "'"
  }

  /** The unresponsive rows, in table order. */
  function Dead(rows: seq<Entity>, probe: Probe): seq<Entity> {
    if |rows| == 0 then []
    else
      var last := rows[|rows| - 1];
      Dead(rows[..|rows| - 1], probe) + (if Unresponsive(last, probe) then [last] else [])
  }

  /** The rows that answered "pong", in table order. */
  function Alive(rows: seq<Entity>, probe: Probe): seq<Entity> {
    if |rows| == 0 then []
    else
      var last := rows[|rows| - 1];
      Alive(rows[..|rows| - 1], probe) + (if Unresponsive(last, probe) then [] else [last])
  }

  /** The quoted UUIDs of `rows`, in order. */
  function QuotedIds(rows: seq<Entity>): seq<string> {
    if |rows| == 0 then []
    else QuotedIds(rows[..|rows| - 1]) + [Quote(rows[|rows| - 1].uuid)]
  }

  /** The URLs of `rows`, in order. */
  function URLs(rows: seq<Entity>): seq<string> {
    if |rows| == 0 then []
    else URLs(rows[..|rows| - 1]) + [rows[|rows| - 1].permURL]
  }

  /** The rows whose quoted UUID is not one of `ids`. */
  function RemoveIds(rows: seq<Entity>, ids: seq<string>): seq<Entity> {
    if |rows| == 0 then []
    else
      var last := rows[|rows| - 1];
      RemoveIds(rows[..|rows| - 1], ids) + (if Quote(last.uuid) in ids then [] else [last])
  }

  /** `DELETE ... WHERE UUID IN (inList)`: what remains of `rows`. */
  function DeleteWhereIn(rows: seq<Entity>, inList: string): seq<Entity> {
    RemoveIds(rows, Split(inList, ','))
  }

  function TableName(t: ProbedTable): string {
    match t
    case Agents => "Agents"
    case Positions => "Positions"
  }

  function DeleteStatement(t: ProbedTable, inList: string): string {
    "DELETE FROM `" + TableName(t) + "` WHERE `UUID` IN (" + inList + ")"
  }

  /** The statements one sweep of table `t` executes: one DELETE, or none when nobody is dead. */
  function SweepStatements(t: ProbedTable, rows: seq<Entity>, probe: Probe): seq<string> {
    var ids := QuotedIds(Dead(rows, probe));
    if |ids| > 0 then [DeleteStatement(t, Join(ids, ','))] else []
  }

  /** The table after one sweep. */
  function AfterSweep(rows: seq<Entity>, probe: Probe): seq<Entity> {
    var ids := QuotedIds(Dead(rows, probe));
    if |ids| > 0 then DeleteWhereIn(rows, Join(ids, ',')) else rows
  }

  /** UUIDs are keys (no two rows share one) and hold no comma. */
  predicate WellKeyed(rows: seq<Entity>) {
    && (forall i, j :: 0 <= i < j < |rows| ==> rows[i].uuid != rows[j].uuid)
    && (forall i :: 0 <= i < |rows| ==> ',' !in rows[i].uuid)
  }

  /** An obstacle not updated in the last four hours; exactly four hours is not expired. */
  predicate Expired(o: Obstacle, now: int) {
    o.lastUpdate < now - MaxAge
  }

  /** The obstacles the age rule keeps, in order. */
  function KeepRecent(obstacles: seq<Obstacle>, now: int): seq<Obstacle> {
    if |obstacles| == 0 then []
    else
      var last := obstacles[|obstacles| - 1];
      KeepRecent(obstacles[..|obstacles| - 1], now) + (if Expired(last, now) then [] else [last])
  }

  /**
   * The probe-and-collect loop over one table: every row is pinged once,
   * in order, and the quoted UUID of each unresponsive row is appended to
   * the delete list, which starts empty. `called` is the sequence of URLs
   * pinged.
   */
  method CollectDead(rows: seq<Entity>, probe: Probe) returns (toDelete: seq<string>, called: seq<string>)
    ensures toDelete == QuotedIds(Dead(rows, probe))
    ensures called == URLs(rows)
  {
    toDelete := [];
    called := [];
    var i := 0;
    while i < |rows|
      invariant 0 <= i <= |rows|
      invariant toDelete == QuotedIds(Dead(rows[..i], probe))
      invariant called == URLs(rows[..i])
    {
      var row := rows[i];
      var callResult := probe(row.permURL, PingCommand);
      called := called + [row.permURL];
      assert rows[..i + 1][..i] == rows[..i];
      if callResult.failed || callResult.reply != "pong" {
        toDelete := toDelete + [Quote(row.uuid)];
        assert Dead(rows[..i + 1], probe) == Dead(rows[..i], probe) + [row];
        QuotedIdsSnoc(Dead(rows[..i], probe), row);
      } else {
        assert Dead(rows[..i + 1], probe) == Dead(rows[..i], probe);
      }
      i := i + 1;
    }
    assert rows[..i] == rows;
  }

  /** The tables the collector works on, and the statements it has executed. */
  class Store {
    var agents: seq<Entity>
    var positions: seq<Entity>
    var obstacles: seq<Obstacle>
    var executed: seq<string>
    var calls: seq<string>

    constructor (agents: seq<Entity>, positions: seq<Entity>, obstacles: seq<Obstacle>)
      ensures this.agents == agents && this.positions == positions && this.obstacles == obstacles
      ensures executed == [] && calls == []
    {
      this.agents := agents;
      this.positions := positions;
      this.obstacles := obstacles;
      executed := [];
      calls := [];
    }

    function Registry(t: ProbedTable): seq<Entity>
      reads this
    {
      match t
      case Agents => agents
      case Positions => positions
    }

    /**
     * One probed table's part of a tick: collect the dead, and delete them
     * with one statement when there are any.
     */
    method Sweep(t: ProbedTable, probe: Probe)
      modifies this
      ensures Registry(t) == AfterSweep(old(Registry(t)), probe)
      ensures WellKeyed(old(Registry(t))) ==> Registry(t) == Alive(old(Registry(t)), probe)
      ensures t == Agents ==> positions == old(positions)
      ensures t == Positions ==> agents == old(agents)
      ensures obstacles == old(obstacles)
      ensures executed == old(executed) + SweepStatements(t, old(Registry(t)), probe)
      ensures calls == old(calls) + URLs(old(Registry(t)))
    {
      var rows := Registry(t);
      var toDelete, called := CollectDead(rows, probe);
      calls := calls + called;
      if |toDelete| > 0 {
        var inList := Join(toDelete, ',');
        executed := executed + [DeleteStatement(t, inList)];
        var survivors := DeleteWhereIn(rows, inList);
        match t
        case Agents => agents := survivors;
        case Positions => positions := survivors;
      }
      if WellKeyed(rows) {
        SweepKeepsAlive(rows, probe);
      }
    }

    /** The obstacle part of a tick: one DELETE by age, always executed. */
    method ExpireObstacles(now: int)
      modifies this
      ensures obstacles == KeepRecent(old(obstacles), now)
      ensures agents == old(agents) && positions == old(positions) && calls == old(calls)
      ensures executed == old(executed) + [ObstacleStatement]
    {
      executed := executed + [ObstacleStatement];
      obstacles := KeepRecent(obstacles, now);
    }

    /** One tick of the collector: Agents, then Positions, then Obstacles. */
    method Tick(probe: Probe, now: int)
      modifies this
      ensures agents == AfterSweep(old(agents), probe)
      ensures positions == AfterSweep(old(positions), probe)
      ensures obstacles == KeepRecent(old(obstacles), now)
      ensures executed == old(executed)
        + SweepStatements(Agents, old(agents), probe)
        + SweepStatements(Positions, old(positions), probe)
        + [ObstacleStatement]
      ensures calls == old(calls) + URLs(old(agents)) + URLs(old(positions))
    {
      Sweep(Agents, probe);
      Sweep(Positions, probe);
      ExpireObstacles(now);
    }
  }

  // ---------------------------------------------------------------------
  // Properties of the sweep
  // ---------------------------------------------------------------------

  lemma QuotedIdsSnoc(rows: seq<Entity>, e: Entity)
    ensures QuotedIds(rows + [e]) == QuotedIds(rows) + [Quote(e.uuid)]
  {
    assert (rows + [e])[..|rows|] == rows;
  }

  /** A row is collected if and only if it is in the table and its ping failed or was not "pong". */
  lemma {:induction false} DeadMembership(rows: seq<Entity>, probe: Probe, e: Entity)
    ensures e in Dead(rows, probe) <==> e in rows && Unresponsive(e, probe)
  {
    if |rows| > 0 {
      var init := rows[..|rows| - 1];
      DeadMembership(init, probe, e);
      assert rows == init + [rows[|rows| - 1]];
    }
  }

  /** Collecting over two stretches of a table is collecting over each, in order. */
  lemma {:induction false} DeadConcat(a: seq<Entity>, b: seq<Entity>, probe: Probe)
    ensures Dead(a + b, probe) == Dead(a, probe) + Dead(b, probe)
    decreases |b|
  {
    if |b| == 0 {
      assert a + b == a;
    } else {
      var init := b[..|b| - 1];
      assert (a + b)[..|a + b| - 1] == a + init;
      DeadConcat(a, init, probe);
    }
  }

  /** Every row is either collected or kept, never both. */
  lemma {:induction false} DeadAlivePartition(rows: seq<Entity>, probe: Probe)
    ensures multiset(Dead(rows, probe)) + multiset(Alive(rows, probe)) == multiset(rows)
    ensures |Dead(rows, probe)| + |Alive(rows, probe)| == |rows|
  {
    if |rows| > 0 {
      var init, last := rows[..|rows| - 1], rows[|rows| - 1];
      DeadAlivePartition(init, probe);
      assert multiset(rows) == multiset(init) + multiset{last} by {
        assert rows == init + [last];
      }
      if Unresponsive(last, probe) {
        assert Dead(rows, probe) == Dead(init, probe) + [last];
        assert Alive(rows, probe) == Alive(init, probe);
      } else {
        assert Dead(rows, probe) == Dead(init, probe);
        assert Alive(rows, probe) == Alive(init, probe) + [last];
      }
    }
  }

  lemma {:induction false} QuotedIdsLength(rows: seq<Entity>)
    ensures |QuotedIds(rows)| == |rows|
  {
    if |rows| > 0 {
      QuotedIdsLength(rows[..|rows| - 1]);
    }
  }

  /** The delete list holds, in order, exactly the quoted UUIDs of the collected rows. */
  lemma {:induction false} QuotedIdsAt(rows: seq<Entity>, k: int)
    requires 0 <= k < |rows|
    ensures |QuotedIds(rows)| == |rows|
    ensures QuotedIds(rows)[k] == Quote(rows[k].uuid)
  {
    QuotedIdsLength(rows);
    if k < |rows| - 1 {
      QuotedIdsAt(rows[..|rows| - 1], k);
    }
  }

  /** Distinct UUIDs are quoted to distinct literals. */
  lemma QuoteInjective(u: string, v: string)
    requires Quote(u) == Quote(v)
    ensures u == v
  {
    assert u == Quote(u)[1..|Quote(u)| - 1];
    assert v == Quote(v)[1..|Quote(v)| - 1];
  }

  /** A quoted UUID of a row with no comma holds no comma. */
  lemma QuotedIdsCommaFree(rows: seq<Entity>)
    requires forall i :: 0 <= i < |rows| ==> ',' !in rows[i].uuid
    ensures forall k :: 0 <= k < |QuotedIds(rows)| ==> ',' !in QuotedIds(rows)[k]
  {
    QuotedIdsLength(rows);
    forall k | 0 <= k < |QuotedIds(rows)|
      ensures ',' !in QuotedIds(rows)[k]
    {
      QuotedIdsAt(rows, k);
    }
  }

  /**
   * The joined delete list has one separator fewer than it has ids, and
   * splitting it at the separators gives the ids back.
   */
  lemma JoinedIds(rows: seq<Entity>, probe: Probe)
    requires forall i :: 0 <= i < |rows| ==> ',' !in rows[i].uuid
    requires |Dead(rows, probe)| > 0
    ensures var ids := QuotedIds(Dead(rows, probe));
      && Count(Join(ids, ','), ',') == |ids| - 1
      && Split(Join(ids, ','), ',') == ids
  {
    var dead := Dead(rows, probe);
    forall i | 0 <= i < |dead|
      ensures ',' !in dead[i].uuid
    {
      DeadMembership(rows, probe, dead[i]);
    }
    QuotedIdsCommaFree(dead);
    QuotedIdsLength(dead);
    JoinCount(QuotedIds(dead), ',');
    SplitJoin(QuotedIds(dead), ',');
  }

  /** Removing the rows whose quoted id is listed keeps exactly the rows not listed. */
  lemma {:induction false} RemoveIdsKeepsAlive(rows: seq<Entity>, ids: seq<string>, probe: Probe)
    requires forall i :: 0 <= i < |rows| ==> (Quote(rows[i].uuid) in ids <==> Unresponsive(rows[i], probe))
    ensures RemoveIds(rows, ids) == Alive(rows, probe)
  {
    if |rows| > 0 {
      RemoveIdsKeepsAlive(rows[..|rows| - 1], ids, probe);
    }
  }

  /** With keyed rows, a row's quoted id is in the delete list exactly when the row is dead. */
  lemma ListedIffDead(rows: seq<Entity>, probe: Probe, i: int)
    requires WellKeyed(rows)
    requires 0 <= i < |rows|
    ensures Quote(rows[i].uuid) in QuotedIds(Dead(rows, probe)) <==> Unresponsive(rows[i], probe)
  {
    var dead := Dead(rows, probe);
    var ids := QuotedIds(dead);
    QuotedIdsLength(dead);
    if Quote(rows[i].uuid) in ids {
      var k :| 0 <= k < |ids| && ids[k] == Quote(rows[i].uuid);
      QuotedIdsAt(dead, k);
      QuoteInjective(dead[k].uuid, rows[i].uuid);
      DeadMembership(rows, probe, dead[k]);
      var j :| 0 <= j < |rows| && rows[j] == dead[k];
      assert rows[j].uuid == rows[i].uuid;
      assert j == i;
    }
    if Unresponsive(rows[i], probe) {
      DeadMembership(rows, probe, rows[i]);
      var k :| 0 <= k < |dead| && dead[k] == rows[i];
      QuotedIdsAt(dead, k);
    }
  }

  /**
   * After the sweep a table holds exactly the rows that answered "pong",
   * in their original order: nothing else is removed.
   */
  lemma SweepKeepsAlive(rows: seq<Entity>, probe: Probe)
    requires WellKeyed(rows)
    ensures AfterSweep(rows, probe) == Alive(rows, probe)
  {
    var ids := QuotedIds(Dead(rows, probe));
    forall i | 0 <= i < |rows|
      ensures Quote(rows[i].uuid) in ids <==> Unresponsive(rows[i], probe)
    {
      ListedIffDead(rows, probe, i);
    }
    RemoveIdsKeepsAlive(rows, ids, probe);
    QuotedIdsLength(Dead(rows, probe));
    if |ids| > 0 {
      JoinedIds(rows, probe);
    } else {
      RemoveIdsNone(rows);
      assert RemoveIds(rows, ids) == rows;
    }
  }

  lemma {:induction false} RemoveIdsNone(rows: seq<Entity>)
    ensures RemoveIds(rows, []) == rows
  {
    if |rows| > 0 {
      RemoveIdsNone(rows[..|rows| - 1]);
    }
  }

  /**
   * No DELETE is executed when every row answered "pong", and then the
   * table is untouched; otherwise exactly one is.
   */
  lemma NoDeadNoDelete(t: ProbedTable, rows: seq<Entity>, probe: Probe)
    ensures |SweepStatements(t, rows, probe)| == 0
      <==> forall i :: 0 <= i < |rows| ==> !Unresponsive(rows[i], probe)
    ensures |SweepStatements(t, rows, probe)| <= 1
    ensures |SweepStatements(t, rows, probe)| == 0 ==> AfterSweep(rows, probe) == rows
  {
    var dead := Dead(rows, probe);
    QuotedIdsLength(dead);
    if exists i :: 0 <= i < |rows| && Unresponsive(rows[i], probe) {
      var i :| 0 <= i < |rows| && Unresponsive(rows[i], probe);
      DeadMembership(rows, probe, rows[i]);
    }
    if |dead| > 0 {
      DeadMembership(rows, probe, dead[0]);
    }
  }

  /** Every id in a table's delete statement belongs to a dead row of that same table. */
  lemma ListedIdsFromTable(rows: seq<Entity>, probe: Probe, q: string)
    requires q in QuotedIds(Dead(rows, probe))
    ensures exists i :: 0 <= i < |rows| && q == Quote(rows[i].uuid) && Unresponsive(rows[i], probe)
  {
    var dead := Dead(rows, probe);
    QuotedIdsLength(dead);
    var k :| 0 <= k < |dead| && QuotedIds(dead)[k] == q;
    QuotedIdsAt(dead, k);
    DeadMembership(rows, probe, dead[k]);
    var i :| 0 <= i < |rows| && rows[i] == dead[k];
  }

  /** An obstacle is kept if and only if it was updated no earlier than four hours ago. */
  lemma {:induction false} KeepRecentMembership(obstacles: seq<Obstacle>, now: int, o: Obstacle)
    ensures o in KeepRecent(obstacles, now) <==> o in obstacles && now - MaxAge <= o.lastUpdate
  {
    if |obstacles| > 0 {
      var init := obstacles[..|obstacles| - 1];
      KeepRecentMembership(init, now, o);
      assert obstacles == init + [obstacles[|obstacles| - 1]];
    }
  }

  /** The comparison is strict: an obstacle exactly four hours old survives, one a second older does not. */
  lemma FourHourBoundary(obstacles: seq<Obstacle>, now: int, o: Obstacle)
    requires o in obstacles
    ensures o.lastUpdate == now - 4 * 60 * 60 ==> o in KeepRecent(obstacles, now)
    ensures o.lastUpdate == now - 4 * 60 * 60 - 1 ==> o !in KeepRecent(obstacles, now)
  {
    KeepRecentMembership(obstacles, now, o);
  }

  /**
   * Three agents where only the second fails to answer: only it is collected.
   * The rows are parameters fixed by `requires`, which keeps the solver from
   * unfolding the filters on the literals before the proof steps ask for it.
   */
  lemma ThreeAgentsDead(probe: Probe, a: Entity, b: Entity, c: Entity)
    requires a == Entity("A", "http://a") && b == Entity("B", "http://b") && c == Entity("C", "http://c")
    requires probe("http://a", PingCommand) == CallResult("pong", false)
    requires probe("http://b", PingCommand) == CallResult("", true)
    requires probe("http://c", PingCommand) == CallResult("pong", false)
    ensures Dead([a, b, c], probe) == [b]
    ensures Alive([a, b, c], probe) == [a, c]
  {
    assert [a, b, c][..2] == [a, b] && [a, b][..1] == [a] && [a][..0] == [];
    assert !Unresponsive(a, probe) && Unresponsive(b, probe) && !Unresponsive(c, probe);
    assert Dead([a], probe) == [];
    assert Alive([a][..0], probe) == [];
    assert Alive([a], probe) == [a];
    assert Dead([a, b], probe) == [b];
    assert Alive([a, b], probe) == [a];
  }

  /** ... so the one statement executed deletes 'B', and A and C remain. */
  lemma ThreeAgentsExample(probe: Probe, a: Entity, b: Entity, c: Entity)
    requires a == Entity("A", "http://a") && b == Entity("B", "http://b") && c == Entity("C", "http://c")
    requires probe("http://a", PingCommand) == CallResult("pong", false)
    requires probe("http://b", PingCommand) == CallResult("", true)
    requires probe("http://c", PingCommand) == CallResult("pong", false)
    ensures SweepStatements(Agents, [a, b, c], probe) == ["DELETE FROM `Agents` WHERE `UUID` IN ('B')"]
    ensures AfterSweep([a, b, c], probe) == [a, c]
  {
    ThreeAgentsDead(probe, a, b, c);
    assert [b][..0] == [];
    assert Quote(b.uuid) == "'B'";
    assert QuotedIds([b]) == ["'B'"];
    assert Join(["'B'"], ',') == "'B'";
    assert DeleteStatement(Agents, "'B'") == "DELETE FROM `Agents` WHERE `UUID` IN ('B')";
    assert WellKeyed([a, b, c]);
    SweepKeepsAlive([a, b, c], probe);
  }
}
