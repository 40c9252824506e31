/** The dashboard: three counts and two short lists drawn from the moves and
    clients tables. */
module Dashboard {
  import opened Wrappers
  import opened Seqs
  import opened AddClient

  /** A move as the dashboard query returns it, with its creation time. */
  datatype ListedMove = ListedMove(move: MoveRecord, createdAt: int)

  datatype Stats = Stats(activeClients: nat, upcomingMoves: nat, completedMoves: nat)

  /** What `fetchDashboardData` yields: the thrown error, or the lists and counts. */
  datatype DashboardData =
    | Failed
    | Loaded(moves: Option<seq<ListedMove>>, clients: Option<seq<ClientRecord>>, stats: Stats)

  /** The move starts after `now`. */
  function Upcoming(now: int): ListedMove -> bool {
    (m: ListedMove) => m.move.startDate > now
  }

  function Completed(m: ListedMove): bool {
    m.move.status == "completed"
  }

  /** `list?.length || 0`. */
  function LengthOrZero<T>(s: Option<seq<T>>): (n: nat)
    ensures s.None? ==> n == 0
    ensures s.Some? ==> n == |s.value|
  {
    if s.Some? then |s.value| else 0
  }

  /** The counts: clients, moves after `now`, completed moves; each count of
      moves is at most the number of moves, and a missing list counts 0. */
  function ComputeStats(moves: Option<seq<ListedMove>>, clients: Option<seq<ClientRecord>>, now: int)
    : (st: Stats)
    ensures st.activeClients == LengthOrZero(clients)
    ensures st.upcomingMoves <= LengthOrZero(moves) && st.completedMoves <= LengthOrZero(moves)
    ensures moves.None? ==> st.upcomingMoves == 0 && st.completedMoves == 0
    ensures moves.Some? ==>
      && st.upcomingMoves == |Filter(moves.value, Upcoming(now))|
      && st.completedMoves == |Filter(moves.value, Completed)|
  {
    Stats(LengthOrZero(clients),
          if moves.Some? then |Filter(moves.value, Upcoming(now))| else 0,
          if moves.Some? then |Filter(moves.value, Completed)| else 0)
  }

  /** `fetchDashboardData`, given what the two queries return (`Throws` for
      a query error): either error throws, so no counts are produced. */
  function FetchDashboardData(moves: Call<Option<seq<ListedMove>>>, clients: Call<Option<seq<ClientRecord>>>,
                              now: int): (d: DashboardData)
    ensures d.Failed? <==> moves.Throws? || clients.Throws?
    ensures d.Loaded? ==>
      && d.moves == moves.value && d.clients == clients.value
      && d.stats == ComputeStats(moves.value, clients.value, now)
  {
    if moves.Throws? || clients.Throws? then Failed
    else Loaded(moves.value, clients.value, ComputeStats(moves.value, clients.value, now))
  }

  /** The moves are newest first, as the query orders them. */
  ghost predicate NewestFirst(moves: seq<ListedMove>) {
    Ordered(moves, (a: ListedMove, b: ListedMove) => a.createdAt >= b.createdAt)
  }

  /** Recent activities: the first three moves. */
  function RecentActivities(moves: seq<ListedMove>): (r: seq<ListedMove>)
    ensures |r| == if |moves| < 3 then |moves| else 3
    ensures forall i :: 0 <= i < |r| ==> r[i] == moves[i]
  {
    Take(moves, 3)
  }

  /** Upcoming tasks: the first three moves that start after `now`. */
  function UpcomingTasks(moves: seq<ListedMove>, now: int): (t: seq<ListedMove>)
    ensures |t| <= 3
    ensures forall i :: 0 <= i < |t| ==> t[i] in moves && t[i].move.startDate > now
  {
    var f := Filter(moves, Upcoming(now));
    var t := Take(f, 3);
    assert forall i :: 0 <= i < |t| ==> t[i] == f[i] && f[i] in f;
    t
  }

  /** With the moves newest first, recent activities are at most three moves,
      none older than any move left out. */
  lemma RecentAreNewest(moves: seq<ListedMove>)
    requires NewestFirst(moves)
    ensures var r := RecentActivities(moves);
      && |r| == (if |moves| < 3 then |moves| else 3)
      && forall i, j :: 0 <= i < |r| && |r| <= j < |moves| ==> r[i].createdAt >= moves[j].createdAt
  {
  }

  /** Upcoming tasks are the leading (at most three) moves of those starting
      after `now`, kept newest first like the list they come from; when fewer
      than three moves are upcoming, all of them are listed. */
  lemma UpcomingTasksSpec(moves: seq<ListedMove>, now: int)
    requires NewestFirst(moves)
    ensures var t := UpcomingTasks(moves, now);
      && |t| <= 3
      && (forall i :: 0 <= i < |t| ==> t[i] in moves && t[i].move.startDate > now)
      && NewestFirst(t)
      && t == Filter(moves, Upcoming(now))[..|t|]
      && (|t| < 3 ==> t == Filter(moves, Upcoming(now)))
  {
    var f := Filter(moves, Upcoming(now));
    FilterOrdered(moves, Upcoming(now), (a: ListedMove, b: ListedMove) => a.createdAt >= b.createdAt);
    var t := Take(f, 3);
    forall i | 0 <= i < |t| ensures t[i] in moves && t[i].move.startDate > now {
      assert t[i] == f[i] && f[i] in f;
    }
  }
}
