/**
 * The match controller of one building-contest match (game/Game.php): world
 * provisioning and its completion callback, admission, the per-tick state
 * machine, scoring with its win/loss bookkeeping, the broadcast guard, and
 * teardown. Worlds, the filesystem, the background job pool, the player
 * manager, the phase handlers and localisation are outside the model; what
 * the controller asks of them appears as parameters and results.
 */
module Games {
  import opened Options
  import opened Text
  import opened Plots
  import opened Ranking

  /** Sessions are told apart by their player's UUID. */
  type Uuid = nat

  datatype SessionState = WaitingResults | OtherState(tag: int)

  /** A player's participation record, as far as the controller reads and updates it. */
  datatype Session = Session(uuid: Uuid, score: int, state: SessionState, wins: nat, losses: nat, streak: nat)

  /** What the controller sees of its player manager: the admitted sessions in collection order and the queue size. */
  datatype PlayerManager = PlayerManager(sessions: seq<Session>, queues: nat)

  /** A template-declared plot region, its corners already parsed. */
  datatype Spawn = Spawn(id: int, min: Vec3, max: Vec3)

  /** The match template. */
  datatype GameData = GameData(id: int, name: string, world: string, lobby: string,
                               maxPlayers: int, buildHeight: int, spawns: seq<Spawn>)

  /** The phase handler in charge; every phase between pre-start and end is an ActiveHandler here. */
  datatype Handler = PreStartHandler | ActiveHandler | EndHandler

  /** Directories: a part of a map template in the plugin's data folder, or a live world in the server's worlds folder. */
  datatype TemplatePart = WorldTemplate | LobbyTemplate
  datatype Dir = MapDir(game: string, part: TemplatePart) | WorldDir(world: string)

  /** A job handed to the background pool: a directory copy with its (source, destination) pairs, or a delete. */
  datatype Job = CloneJob(copies: seq<(Dir, Dir)>) | DeleteJob(dirs: seq<Dir>, gameId: int)

  datatype HandlerCall = HandleTicking(handler: Handler) | HandleScoreboardUpdates(handler: Handler)

  /**
   * What one tick did. A teardown carries the worlds it asked the server to unload; scoring the
   * last player carries the podium announced and the position lines sent.
   */
  datatype TickOutcome = Skipped | Destroyed(unloaded: seq<string>) | Scored(survivor: Uuid, podium: seq<Entry>, reports: seq<Report>) | Delegated(calls: seq<HandlerCall>)

  /** The end-of-match line sent to one session: its position and its score. */
  datatype Report = Report(uuid: Uuid, position: nat, score: int)

  ghost predicate DistinctUuids(s: seq<Session>) {
    forall i, j :: 0 <= i < j < |s| ==> s[i].uuid != s[j].uuid
  }

  function UuidsOf(s: seq<Session>): (r: seq<Uuid>)
    ensures |r| == |s|
    ensures forall i :: 0 <= i < |s| ==> r[i] == s[i].uuid
  {
    if s == [] then [] else UuidsOf(s[..|s| - 1]) + [s[|s| - 1].uuid]
  }

  /** getSessions($mode): the sessions in the given state, or all of them. */
  function InState(s: seq<Session>, mode: Option<SessionState>): (r: seq<Session>)
    ensures mode.None? ==> r == s
    ensures forall x :: x in r <==> x in s && (mode.None? || x.state == mode.value)
  {
    if s == [] then []
    else
      var last := s[|s| - 1];
      assert s == s[..|s| - 1] + [last];
      InState(s[..|s| - 1], mode) + if mode.None? || last.state == mode.value then [last] else []
  }

  /** hasSeparateLobby: the lobby name differs from the world name ignoring ASCII case, and the lobby template exists. */
  function HasSeparateLobby(d: GameData, lobbyTemplateExists: bool): (sep: bool)
    ensures sep <==> lobbyTemplateExists && !SameIgnoringCase(d.lobby, d.world)
  {
    LowerEqualIffSameIgnoringCase(d.lobby, d.world);
    Lower(d.lobby) != Lower(d.world) && lobbyTemplateExists
  }

  /** The copy job the constructor submits: the world template, and the lobby template when there is a separate lobby. */
  function CloneDirs(d: GameData, sep: bool): (r: seq<(Dir, Dir)>)
    ensures |r| == if sep then 2 else 1
    ensures forall i :: 0 <= i < |r| ==> r[i].0.MapDir? && r[i].0.game == d.name && r[i].1.WorldDir?
    ensures r[0].0.part == WorldTemplate && r[0].1 == WorldDir(d.world)
    ensures sep ==> r[1].0.part == LobbyTemplate && r[1].1 == WorldDir(d.lobby)
  {
    [(MapDir(d.name, WorldTemplate), WorldDir(d.world))] +
    if sep then [(MapDir(d.name, LobbyTemplate), WorldDir(d.lobby))] else []
  }

  /** The delete job teardown submits: the live world, and the live lobby when there is a separate lobby. */
  function DeleteDirs(d: GameData, sep: bool): (r: seq<Dir>)
    ensures 1 <= |r| <= 2 && r[0] == WorldDir(d.world)
    ensures forall i :: 0 <= i < |r| ==> r[i].WorldDir?
    ensures WorldDir(d.lobby) in r <==> sep || d.lobby == d.world
  {
    [WorldDir(d.world)] + if sep then [WorldDir(d.lobby)] else []
  }

  /** Teardown deletes exactly the directories provisioning copied into, in the same order. */
  lemma DeleteMirrorsClone(d: GameData, sep: bool)
    ensures |DeleteDirs(d, sep)| == |CloneDirs(d, sep)|
    ensures forall i :: 0 <= i < |DeleteDirs(d, sep)| ==> DeleteDirs(d, sep)[i] == CloneDirs(d, sep)[i].1
    ensures sep ==> WorldDir(d.lobby) in DeleteDirs(d, sep)
  {
  }

  // ---------------------------------------------------------------- plots from spawns

  function NewPlot(sp: Spawn, height: int): Plot {
    Plot(sp.id, false, sp.min, sp.max, height)
  }

  /** The plot map after addPlot has been called for each spawn in turn. */
  function WithSpawns(m: map<int, Plot>, spawns: seq<Spawn>, height: int): map<int, Plot> {
    if spawns == [] then m
    else
      var last := spawns[|spawns| - 1];
      WithSpawns(m, spawns[..|spawns| - 1], height)[last.id := NewPlot(last, height)]
  }

  /** The registration order after addPlot has been called for each spawn: the old order, then each new id in spawn order. */
  function OrderWithSpawns(order: seq<int>, spawns: seq<Spawn>): seq<int> {
    if spawns == [] then order
    else
      var prev := OrderWithSpawns(order, spawns[..|spawns| - 1]);
      var id := spawns[|spawns| - 1].id;
      if id in prev then prev else prev + [id]
  }

  function SpawnIds(spawns: seq<Spawn>): set<int> {
    set k | 0 <= k < |spawns| :: spawns[k].id
  }

  ghost predicate DistinctSpawnIds(spawns: seq<Spawn>) {
    forall i, j :: 0 <= i < j < |spawns| ==> spawns[i].id != spawns[j].id
  }

  lemma SpawnIdsSnoc(spawns: seq<Spawn>)
    requires spawns != []
    ensures SpawnIds(spawns) == SpawnIds(spawns[..|spawns| - 1]) + {spawns[|spawns| - 1].id}
  {
    var prefix := spawns[..|spawns| - 1];
    assert forall k :: 0 <= k < |prefix| ==> prefix[k] == spawns[k];
  }

  /** Loading the spawns registers one plot per spawn id and leaves the other plots as they were. */
  lemma {:induction false} SpawnsRegistered(m: map<int, Plot>, spawns: seq<Spawn>, height: int)
    ensures WithSpawns(m, spawns, height).Keys == m.Keys + SpawnIds(spawns)
    ensures forall id :: id in m && id !in SpawnIds(spawns) ==> WithSpawns(m, spawns, height)[id] == m[id]
  {
    if spawns != [] {
      SpawnsRegistered(m, spawns[..|spawns| - 1], height);
      SpawnIdsSnoc(spawns);
    }
  }

  /**
   * The spawn loop keeps the old order as a prefix, lists exactly the old ids and the spawn ids,
   * and lists none twice.
   */
  lemma {:induction false} SpawnOrder(order: seq<int>, spawns: seq<Spawn>)
    ensures |order| <= |OrderWithSpawns(order, spawns)| && OrderWithSpawns(order, spawns)[..|order|] == order
    ensures forall x :: x in OrderWithSpawns(order, spawns) <==> x in order || x in SpawnIds(spawns)
    ensures (forall i, j :: 0 <= i < j < |order| ==> order[i] != order[j]) ==>
              var r := OrderWithSpawns(order, spawns); forall i, j :: 0 <= i < j < |r| ==> r[i] != r[j]
  {
    if spawns != [] {
      var prefix := spawns[..|spawns| - 1];
      SpawnOrder(order, prefix);
      SpawnIdsSnoc(spawns);
      var prev := OrderWithSpawns(order, prefix);
      var id := spawns[|spawns| - 1].id;
      if id !in prev {
        assert (prev + [id])[..|order|] == prev[..|order|];
        if forall i, j :: 0 <= i < j < |order| ==> order[i] != order[j] {
          forall i, j | 0 <= i < j < |prev| + 1 ensures (prev + [id])[i] != (prev + [id])[j] {
            if j == |prev| {
              assert (prev + [id])[i] == prev[i] && prev[i] in prev;
            } else {
              assert (prev + [id])[i] == prev[i] && (prev + [id])[j] == prev[j];
            }
          }
        }
      }
    }
  }

  /** Spawn ids being the keys of a PHP array, hence distinct, each spawn's own region is stored under its id. */
  lemma {:induction false} SpawnsStored(m: map<int, Plot>, spawns: seq<Spawn>, height: int)
    requires DistinctSpawnIds(spawns)
    ensures forall k :: 0 <= k < |spawns| ==> spawns[k].id in WithSpawns(m, spawns, height)
    ensures forall k :: 0 <= k < |spawns| ==> WithSpawns(m, spawns, height)[spawns[k].id] == NewPlot(spawns[k], height)
  {
    if spawns != [] {
      var n := |spawns| - 1;
      var prefix := spawns[..n];
      assert DistinctSpawnIds(prefix) by {
        forall i, j | 0 <= i < j < |prefix| ensures prefix[i].id != prefix[j].id {
          assert prefix[i] == spawns[i] && prefix[j] == spawns[j];
        }
      }
      SpawnsStored(m, prefix, height);
      forall k | 0 <= k < n
        ensures spawns[k].id in WithSpawns(m, spawns, height)
        ensures WithSpawns(m, spawns, height)[spawns[k].id] == NewPlot(spawns[k], height)
      {
        assert prefix[k] == spawns[k];
      }
    }
  }

  // ---------------------------------------------------------------- scoring

  function EntryOf(x: Session): Entry {
    Entry(x.score, x.uuid)
  }

  predicate HasWaiting(s: seq<Session>) {
    exists i :: 0 <= i < |s| && s[i].state == WaitingResults
  }

  /** The score list before sorting: one row per session waiting for results, in collection order. */
  function Scores(s: seq<Session>): (r: seq<Entry>)
    ensures |r| <= |s|
  {
    if s == [] then []
    else
      var last := s[|s| - 1];
      Scores(s[..|s| - 1]) + if last.state == WaitingResults then [EntryOf(last)] else []
  }

  /** The score list holds exactly the rows of the sessions waiting for results; it is empty exactly when none waits. */
  lemma {:induction false} ScoresMembers(s: seq<Session>)
    ensures forall e :: e in Scores(s) <==> exists i :: 0 <= i < |s| && s[i].state == WaitingResults && e == EntryOf(s[i])
    ensures Scores(s) == [] <==> !HasWaiting(s)
  {
    if s != [] {
      var n := |s| - 1;
      var prefix := s[..n];
      ScoresMembers(prefix);
      assert forall i :: 0 <= i < n ==> prefix[i] == s[i];
      forall e | e in Scores(s) ensures exists i :: 0 <= i < |s| && s[i].state == WaitingResults && e == EntryOf(s[i]) {
        if e !in Scores(prefix) {
          assert s[n].state == WaitingResults && e == EntryOf(s[n]);
        }
      }
      if HasWaiting(s) {
        var i :| 0 <= i < |s| && s[i].state == WaitingResults;
        if i < n {
          assert HasWaiting(prefix);
        }
      }
    }
  }

  /** Rows of sessions with distinct UUIDs are distinct. */
  lemma {:induction false} ScoresDistinct(s: seq<Session>)
    requires DistinctUuids(s)
    ensures Distinct(Scores(s))
  {
    if s != [] {
      var n := |s| - 1;
      var prefix := s[..n];
      assert DistinctUuids(prefix) by {
        forall i, j | 0 <= i < j < |prefix| ensures prefix[i].uuid != prefix[j].uuid {
          assert prefix[i] == s[i] && prefix[j] == s[j];
        }
      }
      ScoresDistinct(prefix);
      ScoresMembers(prefix);
      forall i | 0 <= i < |prefix| ensures EntryOf(s[n]) != EntryOf(prefix[i]) {
        assert prefix[i] == s[i];
      }
      var e := EntryOf(s[n]);
      if s[n].state == WaitingResults {
        var t := Scores(prefix);
        assert e !in t;
        assert Scores(s) == t + [e];
        forall i, j | 0 <= i < j < |t| + 1 ensures (t + [e])[i] != (t + [e])[j] {
          if j == |t| {
            assert (t + [e])[i] == t[i] && t[i] in t;
          } else {
            assert (t + [e])[i] == t[i] && (t + [e])[j] == t[j];
          }
        }
      }
    }
  }

  /** The win/loss/streak update calculateResults applies to one session. */
  function Settled(x: Session, winner: Option<Uuid>): (r: Session)
    ensures r.uuid == x.uuid && r.score == x.score && r.state == x.state
    ensures r.wins + r.losses == x.wins + x.losses + 1
    ensures winner == Some(x.uuid) <==> r.wins == x.wins + 1
    ensures r.streak == if winner == Some(x.uuid) then x.streak + 1 else 0
  {
    if winner != Some(x.uuid) then x.(losses := x.losses + 1, streak := 0)
    else x.(wins := x.wins + 1, streak := x.streak + 1)
  }

  function Settle(s: seq<Session>, winner: Option<Uuid>): (r: seq<Session>)
    ensures |r| == |s|
    ensures forall i :: 0 <= i < |s| ==> r[i] == Settled(s[i], winner)
  {
    if s == [] then [] else Settle(s[..|s| - 1], winner) + [Settled(s[|s| - 1], winner)]
  }

  /** Settling keeps the roster: the same UUIDs in the same order, so they stay distinct. */
  lemma SettleKeepsRoster(s: seq<Session>, winner: Option<Uuid>)
    ensures UuidsOf(Settle(s, winner)) == UuidsOf(s)
    ensures DistinctUuids(s) ==> DistinctUuids(Settle(s, winner))
  {
    var r := Settle(s, winner);
    assert forall j :: 0 <= j < |r| ==> r[j].uuid == s[j].uuid;
  }

  function Wins(s: seq<Session>): nat {
    if s == [] then 0 else Wins(s[..|s| - 1]) + s[|s| - 1].wins
  }

  function Losses(s: seq<Session>): nat {
    if s == [] then 0 else Losses(s[..|s| - 1]) + s[|s| - 1].losses
  }

  /** The number of sessions that are the winner. */
  function Matches(s: seq<Session>, winner: Option<Uuid>): nat {
    if s == [] then 0 else Matches(s[..|s| - 1], winner) + if winner == Some(s[|s| - 1].uuid) then 1 else 0
  }

  /** Settling records one win per winning session and one loss for every other session. */
  lemma {:induction false} SettleTotals(s: seq<Session>, winner: Option<Uuid>)
    ensures Wins(Settle(s, winner)) == Wins(s) + Matches(s, winner)
    ensures Losses(Settle(s, winner)) + Matches(s, winner) == Losses(s) + |s|
  {
    if s != [] {
      var n := |s| - 1;
      SettleTotals(s[..n], winner);
      assert Settle(s, winner)[..n] == Settle(s[..n], winner);
    }
  }

  /** With distinct UUIDs at most one session is the winner, and exactly one when the winner is admitted. */
  lemma {:induction false} MatchesOfDistinct(s: seq<Session>, winner: Option<Uuid>)
    requires DistinctUuids(s)
    ensures Matches(s, winner) <= 1
    ensures Matches(s, winner) == 1 <==> exists i :: 0 <= i < |s| && winner == Some(s[i].uuid)
  {
    if s != [] {
      var n := |s| - 1;
      var prefix := s[..n];
      assert forall i :: 0 <= i < n ==> prefix[i] == s[i];
      assert DistinctUuids(prefix);
      MatchesOfDistinct(prefix, winner);
      if winner == Some(s[n].uuid) {
        forall i | 0 <= i < n ensures winner != Some(prefix[i].uuid) {
          assert s[i].uuid != s[n].uuid;
        }
      }
    }
  }

  /** The line sent to a session: its position in the ranking and its score. */
  function ReportFor(ranking: seq<Entry>, x: Session): (r: Report)
    ensures r.uuid == x.uuid && r.score == x.score && r.position >= 1
    ensures EntryOf(x) !in ranking ==> r.position == 1
    ensures EntryOf(x) in ranking ==> r.position <= |ranking| && ranking[r.position - 1] == EntryOf(x)
  {
    Report(x.uuid, Position(ranking, EntryOf(x)), x.score)
  }

  /** The lines sent to the sessions, in collection order. */
  function Reports(ranking: seq<Entry>, s: seq<Session>): (r: seq<Report>)
    ensures |r| == |s|
  {
    if s == [] then [] else Reports(ranking, s[..|s| - 1]) + [ReportFor(ranking, s[|s| - 1])]
  }

  /** Each session gets its own line, naming it, its score and its position. */
  lemma {:induction false} ReportsPointwise(ranking: seq<Entry>, s: seq<Session>)
    ensures forall i :: 0 <= i < |s| ==> Reports(ranking, s)[i] == ReportFor(ranking, s[i])
  {
    if s != [] {
      var n := |s| - 1;
      ReportsPointwise(ranking, s[..n]);
      assert Reports(ranking, s) == Reports(ranking, s[..n]) + [ReportFor(ranking, s[n])];
      forall i | 0 <= i < n ensures Reports(ranking, s)[i] == ReportFor(ranking, s[i]) {
        assert Reports(ranking, s)[i] == Reports(ranking, s[..n])[i];
        assert s[..n][i] == s[i];
      }
    }
  }

  /**
   * The i-th line goes to the i-th session with its score. A session waiting for results is
   * told 1 plus its index in the sorted score list; any other session is not on the list and,
   * through (int)false, is told 1.
   */
  lemma ReportedPosition(s: seq<Session>, i: nat)
    requires DistinctUuids(s) && i < |s|
    ensures Reports(SortDesc(Scores(s)), s)[i].uuid == s[i].uuid
    ensures Reports(SortDesc(Scores(s)), s)[i].score == s[i].score
    ensures s[i].state == WaitingResults ==>
              exists k :: 0 <= k < |SortDesc(Scores(s))| && SortDesc(Scores(s))[k] == EntryOf(s[i]) &&
                          Reports(SortDesc(Scores(s)), s)[i].position == k + 1
    ensures s[i].state != WaitingResults ==> Reports(SortDesc(Scores(s)), s)[i].position == 1
  {
    var scores := Scores(s);
    var ranking := SortDesc(scores);
    ReportsPointwise(ranking, s);
    ScoresMembers(s);
    ScoresDistinct(s);
    SortDescPermutes(scores);
    SortDescDistinct(scores);
    var e := EntryOf(s[i]);
    assert e in ranking <==> e in scores by {
      assert e in ranking <==> e in multiset(ranking);
      assert e in scores <==> e in multiset(scores);
    }
    if s[i].state == WaitingResults {
      assert e in scores;
      var k :| 0 <= k < |ranking| && ranking[k] == e;
      PositionInDistinct(ranking, k);
    } else {
      forall j | 0 <= j < |s| && s[j].state == WaitingResults ensures e != EntryOf(s[j]) {
        assert j != i;
      }
    }
  }

  /** The winner picked from a non-empty score list waits for results and no waiting session has a higher score. */
  lemma WinnerIsTopScorer(s: seq<Session>)
    requires HasWaiting(s)
    ensures SortDesc(Scores(s)) != []
    ensures exists i :: 0 <= i < |s| && s[i].state == WaitingResults && EntryOf(s[i]) == SortDesc(Scores(s))[0]
    ensures forall j :: 0 <= j < |s| && s[j].state == WaitingResults ==> s[j].score <= SortDesc(Scores(s))[0].score
  {
    var scores := Scores(s);
    ScoresMembers(s);
    SortDescHeadIsMax(scores);
    forall j | 0 <= j < |s| && s[j].state == WaitingResults ensures s[j].score <= SortDesc(scores)[0].score {
      assert EntryOf(s[j]) in scores;
    }
  }

  /** A lone session waiting for results ranks alone, first, and is told position 1. */
  lemma SoleSessionResults(x: Session)
    requires x.state == WaitingResults
    ensures HasWaiting([x])
    ensures SortDesc(Scores([x])) == [EntryOf(x)]
    ensures Reports([EntryOf(x)], [x]) == [Report(x.uuid, 1, x.score)]
    ensures [EntryOf(x)][..1] == [Entry(x.score, x.uuid)]
    ensures Settle([x], Some(x.uuid)) == [x.(wins := x.wins + 1, streak := x.streak + 1)]
  {
    assert [x][..0] == [];
    assert [EntryOf(x)][..0] == [];
    assert [x][0].state == WaitingResults;
  }

  /**
   * The one-player branch of tickGame on values: the survivor (array_rand of a one-element
   * list) is set to wait for results, and the calculation of calculateResults runs on it.
   */
  method Survivor(pm: PlayerManager, winner: Option<Uuid>)
    returns (w: Option<Uuid>, after: PlayerManager, podium: seq<Entry>, reports: seq<Report>)
    requires |pm.sessions| == 1
    ensures var s := pm.sessions[0];
            && w == Some(s.uuid)
            && after == pm.(sessions := [s.(state := WaitingResults, wins := s.wins + 1, streak := s.streak + 1)])
            && podium == [Entry(s.score, s.uuid)]
            && reports == [Report(s.uuid, 1, s.score)]
  {
    var k :| 0 <= k < |pm.sessions|;
    var picked := pm.sessions[k].(state := WaitingResults);
    SoleSessionResults(picked);
    var ranking, settled;
    ranking, w, podium, settled, reports := Results([picked], winner);
    after := pm.(sessions := settled);
  }

  /** The spawn loop of the copy job's callback: addPlot once per spawn, in template order. */
  method AddSpawns(pm: PlotManager, spawns: seq<Spawn>, height: int)
    requires pm.Valid()
    modifies pm
    ensures pm.Valid()
    ensures pm.plots == WithSpawns(old(pm.plots), spawns, height)
    ensures pm.order == OrderWithSpawns(old(pm.order), spawns)
  {
    var i := 0;
    while i < |spawns|
      invariant 0 <= i <= |spawns|
      invariant pm.Valid()
      invariant pm.plots == WithSpawns(old(pm.plots), spawns[..i], height)
      invariant pm.order == OrderWithSpawns(old(pm.order), spawns[..i])
    {
      var sp := spawns[i];
      assert spawns[..i + 1][..i] == spawns[..i];
      pm.AddPlot(sp.id, sp.min, sp.max, height);
      i := i + 1;
    }
    assert spawns[..i] == spawns;
  }

  /** The first loop of calculateResults: one row per session waiting for results. */
  method CollectScores(sessions: seq<Session>) returns (scores: seq<Entry>)
    ensures scores == Scores(sessions)
  {
    scores := [];
    var i := 0;
    while i < |sessions|
      invariant 0 <= i <= |sessions|
      invariant scores == Scores(sessions[..i])
    {
      assert sessions[..i + 1][..i] == sessions[..i];
      if sessions[i].state == WaitingResults {
        scores := scores + [EntryOf(sessions[i])];
      }
      i := i + 1;
    }
    assert sessions[..i] == sessions;
  }

  /** The second loop of calculateResults: settle every admitted session and tell it its position. */
  method SettleAll(sessions: seq<Session>, winner: Option<Uuid>, ranking: seq<Entry>)
    returns (settled: seq<Session>, reports: seq<Report>)
    ensures settled == Settle(sessions, winner)
    ensures reports == Reports(ranking, sessions)
  {
    settled := [];
    reports := [];
    var i := 0;
    while i < |sessions|
      invariant 0 <= i <= |sessions|
      invariant settled == Settle(sessions[..i], winner)
      invariant reports == Reports(ranking, sessions[..i])
    {
      assert sessions[..i + 1][..i] == sessions[..i];
      settled := settled + [Settled(sessions[i], winner)];
      reports := reports + [ReportFor(ranking, sessions[i])];
      i := i + 1;
    }
    assert sessions[..i] == sessions;
  }

  /** The two loops of calculateResults and the winner pick between them, on values. */
  method Results(sessions: seq<Session>, winner: Option<Uuid>)
    returns (ranking: seq<Entry>, w: Option<Uuid>, podium: seq<Entry>, settled: seq<Session>, reports: seq<Report>)
    requires HasWaiting(sessions) || winner.Some?
    ensures ranking == SortDesc(Scores(sessions))
    ensures w == (if ranking != [] then Some(ranking[0].uuid) else winner)
    ensures w.Some?
    ensures podium == ranking[..if |ranking| < 3 then |ranking| else 3]
    ensures settled == Settle(sessions, w)
    ensures DistinctUuids(sessions) ==> DistinctUuids(settled)
    ensures reports == Reports(ranking, sessions)
  {
    var scores := CollectScores(sessions);
    assert HasWaiting(sessions) ==> scores != [] by {
      ScoresMembers(sessions);
    }
    ranking := SortDesc(scores);
    w := if |ranking| > 0 then Some(ranking[0].uuid) else winner;
    podium := ranking[..if |ranking| < 3 then |ranking| else 3];
    settled, reports := SettleAll(sessions, w, ranking);
    SettleKeepsRoster(sessions, w);
  }

  /**
   * A foreach over a list of sessions. What is done to each session (removeFromGame, a
   * message, a title) happens outside the model, so the loop yields the UUIDs it visits, in order.
   */
  method Visit(sessions: seq<Session>) returns (visited: seq<Uuid>)
    ensures visited == UuidsOf(sessions)
  {
    visited := [];
    var i := 0;
    while i < |sessions|
      invariant 0 <= i <= |sessions|
      invariant visited == UuidsOf(sessions[..i])
    {
      assert sessions[..i + 1][..i] == sessions[..i];
      visited := visited + [sessions[i].uuid];
      i := i + 1;
    }
    assert sessions[..i] == sessions;
  }

  // ---------------------------------------------------------------- the controller

  class Game {
    var data: Option<GameData>
    var playerManager: Option<PlayerManager>
    var plotManager: PlotManager?
    var handler: Option<Handler>
    var winner: Option<Uuid>
    var world: Option<string>
    var lobby: Option<string>
    var loading: bool
    var theme: Option<string>
    /** The jobs this match has submitted to the background pool, oldest first. */
    var jobs: seq<Job>

    /** A live match owns its managers and a handler; a torn-down one has let go of them and stays loading. */
    ghost predicate Valid()
      reads this, plotManager
    {
      if data.None? then TornDown()
      else
        playerManager.Some? && plotManager != null && plotManager.Valid() && handler.Some? &&
        DistinctUuids(playerManager.value.sessions)
    }

    predicate Dead()
      reads this
    {
      data.None?
    }

    /** What startDestruction leaves behind: no template, managers, handler, winner or world, and loading set. */
    predicate TornDown()
      reads this
    {
      data.None? && playerManager.None? && plotManager == null && handler.None? && winner.None? && world.None? && loading
    }

    function Sessions(): seq<Session>
      reads this
    {
      if playerManager.Some? then playerManager.value.sessions else []
    }

    function Queues(): nat
      reads this
    {
      if playerManager.Some? then playerManager.value.queues else 0
    }

    /** A match in progress with fewer than two players left. */
    predicate Collapsing()
      reads this
    {
      |Sessions()| < 2 && handler != Some(EndHandler) && handler != Some(PreStartHandler)
    }

    /** Sets up an empty, loading match in the pre-start phase and submits the copy of its map templates. */
    constructor (data: GameData, lobbyTemplateExists: bool)
      ensures Valid() && !Dead()
      ensures this.data == Some(data) && loading && handler == Some(PreStartHandler)
      ensures playerManager == Some(PlayerManager([], 0))
      ensures fresh(plotManager) && plotManager.plots == map[]
      ensures winner.None? && world.None? && lobby.None? && theme.None?
      ensures jobs == [CloneJob(CloneDirs(data, HasSeparateLobby(data, lobbyTemplateExists)))]
    {
      this.data := Some(data);
      playerManager := Some(PlayerManager([], 0));
      plotManager := new PlotManager();
      handler := Some(PreStartHandler);
      winner := None;
      world := None;
      lobby := None;
      loading := true;
      theme := None;
      jobs := [CloneJob(CloneDirs(data, HasSeparateLobby(data, lobbyTemplateExists)))];
    }

    /**
     * The completion callback of the copy job. A world that fails to load tears the match
     * down; otherwise the lobby falls back to the world when it is not separate or fails to
     * load, one plot is added per spawn, loading ends and the queue is released. A teardown
     * returns the sessions it evicted and the worlds it unloaded, as StartDestruction does.
     */
    method OnWorldsCloned(worldLoaded: bool, lobbyTemplateExists: bool, lobbyLoaded: bool)
      returns (evicted: seq<Uuid>, unloaded: seq<string>)
      requires Valid() && !Dead()
      modifies this, plotManager
      ensures Valid()
      ensures worldLoaded ==> evicted == [] && unloaded == []
      ensures !worldLoaded ==>
                && evicted == UuidsOf(old(Sessions()))
                && unloaded == (if old(world).Some? then [old(world).value] else []) +
                               (if HasSeparateLobby(old(data).value, lobbyTemplateExists) && old(lobby).Some?
                                then [old(lobby).value] else [])
                && Dead() && loading && lobby == old(lobby) && theme == old(theme)
                && jobs == old(jobs) + [DeleteJob(DeleteDirs(old(data).value, HasSeparateLobby(old(data).value, lobbyTemplateExists)),
                                                  old(data).value.id)]
      ensures worldLoaded ==>
                && !Dead() && !loading
                && data == old(data) && handler == old(handler) && winner == old(winner)
                && theme == old(theme) && jobs == old(jobs)
                && world == Some(old(data).value.world)
                && lobby == (if HasSeparateLobby(old(data).value, lobbyTemplateExists) && lobbyLoaded
                             then Some(old(data).value.lobby) else world)
                && plotManager == old(plotManager)
                && plotManager.plots == WithSpawns(old(plotManager.plots), old(data).value.spawns, old(data).value.buildHeight)
                && plotManager.order == OrderWithSpawns(old(plotManager.order), old(data).value.spawns)
                && playerManager == Some(old(playerManager).value.(queues := 0))
    {
      var d := data.value;
      if !worldLoaded {
        evicted, unloaded := StartDestruction(lobbyTemplateExists);
        return;
      }
      evicted, unloaded := [], [];
      world := Some(d.world);
      if HasSeparateLobby(d, lobbyTemplateExists) && lobbyLoaded {
        lobby := Some(d.lobby);
      } else {
        lobby := world;
      }
      AddSpawns(plotManager, d.spawns, d.buildHeight);
      loading := false;
      playerManager := Some(playerManager.value.(queues := 0));
    }

    /**
     * isFree: only a pre-start match below capacity (and, for queue admission, with a queue
     * below capacity) admits players, and once loaded it also needs a free plot.
     */
    function IsFree(fromQueue: bool): (free: bool)
      reads this, plotManager
      requires Valid()
      ensures handler != Some(PreStartHandler) ==> !free
      ensures !loading && !plotManager.HasFreePlot() ==> !free
      ensures !Dead() && |Sessions()| >= data.value.maxPlayers ==> !free
      ensures !Dead() && fromQueue && Queues() >= data.value.maxPlayers ==> !free
      ensures (handler == Some(PreStartHandler) && (loading || plotManager.HasFreePlot()) &&
               |Sessions()| < data.value.maxPlayers && (!fromQueue || Queues() < data.value.maxPlayers)) ==> free
      ensures !fromQueue ==>
                (free <==> handler == Some(PreStartHandler) && (loading || plotManager.HasFreePlot()) &&
                           |Sessions()| < data.value.maxPlayers)
    {
      if handler != Some(PreStartHandler) then false
      else if !loading && !plotManager.HasFreePlot() then false
      else if |playerManager.value.sessions| >= data.value.maxPlayers then false
      else if fromQueue && playerManager.value.queues >= data.value.maxPlayers then false
      else true
    }

    /**
     * tickGame: nothing while loading; a match in progress that has dropped below two players
     * is torn down (nobody left) or scored with the one left as winner; otherwise the handler
     * ticks and then updates its scoreboards. The pick among the remaining sessions stands
     * for array_rand and is left open.
     */
    method TickGame(lobbyTemplateExists: bool) returns (outcome: TickOutcome)
      requires Valid()
      modifies this
      ensures Valid()
      ensures old(loading) ==> outcome == Skipped && unchanged(this)
      ensures !old(loading) && !old(Collapsing()) ==>
                && outcome == Delegated([HandleTicking(old(handler).value), HandleScoreboardUpdates(old(handler).value)])
                && unchanged(this)
      ensures !old(loading) && old(Collapsing()) && |old(Sessions())| == 0 ==>
                && outcome == Destroyed((if old(world).Some? then [old(world).value] else []) +
                                        (if HasSeparateLobby(old(data).value, lobbyTemplateExists) && old(lobby).Some?
                                         then [old(lobby).value] else []))
                && Dead() && lobby == old(lobby) && theme == old(theme)
                && jobs == old(jobs) + [DeleteJob(DeleteDirs(old(data).value, HasSeparateLobby(old(data).value, lobbyTemplateExists)),
                                                  old(data).value.id)]
      ensures !old(loading) && old(Collapsing()) && |old(Sessions())| == 1 ==>
                var s := old(Sessions())[0];
                && outcome == Scored(s.uuid, [Entry(s.score, s.uuid)], [Report(s.uuid, 1, s.score)]) && !Dead()
                && winner == Some(s.uuid) && handler == Some(EndHandler)
                && Sessions() == [s.(state := WaitingResults, wins := s.wins + 1, streak := s.streak + 1)]
                && Queues() == old(Queues()) && loading == old(loading) && data == old(data)
                && world == old(world) && lobby == old(lobby) && theme == old(theme)
                && jobs == old(jobs) && plotManager == old(plotManager)
    {
      if loading {
        return Skipped;
      }
      var sessions := playerManager.value.sessions;
      if |sessions| < 2 && handler != Some(EndHandler) && handler != Some(PreStartHandler) {
        if |sessions| == 0 {
          var evicted, unloaded := StartDestruction(lobbyTemplateExists);
          return Destroyed(unloaded);
        }
        outcome := ScoreSurvivor();
        return;
      }
      return Delegated([HandleTicking(handler.value), HandleScoreboardUpdates(handler.value)]);
    }

    /**
     * The one-player branch of tickGame: the survivor is set to wait for results and the
     * calculation of calculateResults (Results) runs on the match with that one session.
     */
    method ScoreSurvivor() returns (outcome: TickOutcome)
      requires Valid() && !Dead() && |Sessions()| == 1
      modifies this`playerManager, this`winner, this`handler
      ensures Valid() && !Dead()
      ensures var s := old(Sessions())[0];
              && outcome == Scored(s.uuid, [Entry(s.score, s.uuid)], [Report(s.uuid, 1, s.score)])
              && winner == Some(s.uuid) && handler == Some(EndHandler)
              && Sessions() == [s.(state := WaitingResults, wins := s.wins + 1, streak := s.streak + 1)]
              && Queues() == old(Queues())
    {
      var w, pm, podium, reports := Survivor(playerManager.value, winner);
      winner, playerManager, handler := w, Some(pm), Some(EndHandler);
      outcome := Scored(w.value, podium, reports);
    }

    /**
     * calculateResults: sorts the sessions waiting for results by score (stably, highest first),
     * takes the first as winner when there is one, records a win and a streak step for the winner
     * and a loss and a streak reset for every other admitted session, tells each session its
     * position, and switches to the end phase. `podium` is the up-to-three rows announced by place.
     */
    method CalculateResults() returns (ranking: seq<Entry>, podium: seq<Entry>, reports: seq<Report>)
      requires Valid() && !Dead()
      requires HasWaiting(Sessions()) || winner.Some?
      modifies this`playerManager, this`winner, this`handler
      ensures Valid() && !Dead()
      ensures ranking == SortDesc(Scores(old(Sessions())))
      ensures winner == (if ranking != [] then Some(ranking[0].uuid) else old(winner))
      ensures winner.Some?
      ensures podium == ranking[..if |ranking| < 3 then |ranking| else 3]
      ensures Sessions() == Settle(old(Sessions()), winner)
      ensures Queues() == old(Queues())
      ensures reports == Reports(ranking, old(Sessions()))
      ensures handler == Some(EndHandler)
    {
      var pm := playerManager.value;
      var w, settled;
      ranking, w, podium, settled, reports := Results(pm.sessions, winner);
      winner, playerManager, handler := w, Some(pm.(sessions := settled)), Some(EndHandler);
    }

    /**
     * startDestruction: evicts every session (returned in eviction order), asks the server to
     * unload the world and, with a separate lobby, the lobby (returned in that order), submits
     * the delete job, and lets go of everything a live match owns.
     */
    method StartDestruction(lobbyTemplateExists: bool) returns (evicted: seq<Uuid>, unloaded: seq<string>)
      requires !Dead() && playerManager.Some?
      modifies this
      ensures Valid() && TornDown()
      ensures evicted == UuidsOf(old(Sessions()))
      ensures lobby == old(lobby) && theme == old(theme)
      ensures var sep := HasSeparateLobby(old(data).value, lobbyTemplateExists);
              && unloaded == (if old(world).Some? then [old(world).value] else []) +
                             (if sep && old(lobby).Some? then [old(lobby).value] else [])
              && jobs == old(jobs) + [DeleteJob(DeleteDirs(old(data).value, sep), old(data).value.id)]
    {
      var d := data.value;
      var sep := HasSeparateLobby(d, lobbyTemplateExists);
      evicted := Visit(playerManager.value.sessions);
      unloaded := (if world.Some? then [world.value] else []) + (if sep && lobby.Some? then [lobby.value] else []);
      var directories := [WorldDir(d.world)] + if sep then [WorldDir(d.lobby)] else [];
      jobs, handler, playerManager, plotManager, world, winner, data, loading :=
        jobs + [DeleteJob(directories, d.id)], None, None, null, None, None, None, true;
    }

    /** broadcastMessage: a message that is blank once cleaned and trimmed goes to nobody; otherwise to every session in mode. */
    method BroadcastMessage(message: string, clean: string -> string, mode: Option<SessionState>) returns (to: seq<Uuid>)
      requires Valid()
      requires !Dead() || Trim(clean(message)) == ""
      ensures Trim(clean(message)) == "" ==> to == []
      ensures Trim(clean(message)) != "" ==> to == UuidsOf(InState(Sessions(), mode))
    {
      if Trim(clean(message)) == "" {
        return [];
      }
      to := Visit(InState(playerManager.value.sessions, mode));
    }

    /** broadcastTitle: the same guard, on the title alone; the subtitle is never checked. */
    method BroadcastTitle(title: string, subtitle: string, clean: string -> string, mode: Option<SessionState>)
      returns (to: seq<Uuid>)
      requires Valid()
      requires !Dead() || Trim(clean(title)) == ""
      ensures Trim(clean(title)) == "" ==> to == []
      ensures Trim(clean(title)) != "" ==> to == UuidsOf(InState(Sessions(), mode))
    {
      if Trim(clean(title)) == "" {
        return [];
      }
      to := Visit(InState(playerManager.value.sessions, mode));
    }

    method SetHandler(h: Handler)
      requires Valid() && !Dead()
      modifies this`handler
      ensures Valid() && handler == Some(h)
    {
      handler := Some(h);
    }

    method SetWinner(w: Option<Uuid>)
      requires Valid() && !Dead()
      modifies this`winner
      ensures Valid() && winner == w
    {
      winner := w;
    }

    method SetTheme(t: Option<string>)
      modifies this`theme
      ensures old(Valid()) ==> Valid()
      ensures theme == t
    {
      theme := t;
    }
  }
}
