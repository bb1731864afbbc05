/** What a request tracker has to say about each message, read off the queue rows and the marks
    that workers still owe. */
module EventClasses {
  import opened CfsQueue
  import opened W = WaitTracker
  import opened EventProtocol

  /** Some worker settled the message with the queue and has not told the tracker yet. */
  predicate Settling(workers: seq<Worker>, id: string) {
    exists w :: 0 <= w < |workers| && workers[w].Marking? && workers[w].copy.id == id
  }

  // ---- What the tracker must say ----

  datatype Class = Outstanding | Succeeded | GivenUp

  /** A message is outstanding until its row is terminal and its worker has said so. */
  function ClassOf(rows: Rows, workers: seq<Worker>, id: string): Class
    requires id in rows
  {
    if Settling(workers, id) then Outstanding
    else match rows[id].status
      case Done => Succeeded
      case Failed => GivenUp
      case _ => Outstanding
  }

  function Of(rows: Rows, workers: seq<Worker>, r: string, c: Class): set<string> {
    set id | id in rows && rows[id].payload.requestId == r && ClassOf(rows, workers, id) == c
  }

  function RowsOf(rows: Rows, r: string): set<string> {
    set id | id in rows && rows[id].payload.requestId == r
  }

  predicate Exact(rows: Rows, workers: seq<Worker>, t: Track, r: string) {
    && t.pending == Of(rows, workers, r, Outstanding)
    && t.done == |Of(rows, workers, r, Succeeded)|
    && t.failed == |Of(rows, workers, r, GivenUp)|
  }

  lemma ClassParts(rows: Rows, workers: seq<Worker>, r: string)
    ensures forall c, c' :: c != c' ==> Of(rows, workers, r, c) !! Of(rows, workers, r, c')
    ensures RowsOf(rows, r) == Of(rows, workers, r, Outstanding) + Of(rows, workers, r, Succeeded)
                               + Of(rows, workers, r, GivenUp) + {}
  {
  }

  lemma ClassPartition(rows: Rows, workers: seq<Worker>, r: string)
    ensures |Of(rows, workers, r, Outstanding)| + |Of(rows, workers, r, Succeeded)|
            + |Of(rows, workers, r, GivenUp)| == |RowsOf(rows, r)|
  {
    ClassParts(rows, workers, r);
    DisjointSizes(Of(rows, workers, r, Outstanding), Of(rows, workers, r, Succeeded),
                  Of(rows, workers, r, GivenUp), {});
  }

  // ---- How classes change ----

  lemma SameClasses(rows: Rows, workers: seq<Worker>, rows': Rows, workers': seq<Worker>, r: string)
    requires rows'.Keys == rows.Keys
    requires forall id :: id in rows ==>
               && rows'[id].payload == rows[id].payload
               && ClassOf(rows', workers', id) == ClassOf(rows, workers, id)
    ensures forall c :: Of(rows', workers', r, c) == Of(rows, workers, r, c)
  {
    forall c ensures Of(rows', workers', r, c) == Of(rows, workers, r, c) {
      assert forall id :: id in Of(rows', workers', r, c) <==> id in Of(rows, workers, r, c);
    }
  }

  lemma SettlingAfterMove(workers: seq<Worker>, w: nat, wk: Worker, id: string)
    requires w < |workers| && !workers[w].Marking?
    ensures Settling(workers[w := wk], id) <==>
              Settling(workers, id) || (wk.Marking? && wk.copy.id == id)
  {
    var moved := workers[w := wk];
    if wk.Marking? && wk.copy.id == id {
      assert moved[w] == wk;
    }
    if Settling(workers, id) {
      var v :| 0 <= v < |workers| && workers[v].Marking? && workers[v].copy.id == id;
      assert moved[v] == workers[v];
    }
  }

  /** Rows and workers may have changed, but for one message at most. */
  predicate OthersKept(rows: Rows, workers: seq<Worker>, rows': Rows, workers': seq<Worker>, id: string) {
    && id in rows' && rows.Keys + {id} == rows'.Keys
    && (forall j :: j in rows && j != id ==>
          && rows'[j].payload == rows[j].payload
          && ClassOf(rows', workers', j) == ClassOf(rows, workers, j))
    && (id in rows ==> rows'[id].payload == rows[id].payload)
  }

  lemma OneClassChanges(rows: Rows, workers: seq<Worker>, rows': Rows, workers': seq<Worker>,
                        id: string, r: string, c: Class)
    requires OthersKept(rows, workers, rows', workers', id)
    ensures var before := Of(rows, workers, r, c);
            Of(rows', workers', r, c) ==
              if rows'[id].payload.requestId == r && ClassOf(rows', workers', id) == c
              then before + {id} else before - {id}
  {
    var before, now := Of(rows, workers, r, c), Of(rows', workers', r, c);
    forall j | j != id ensures j in now <==> j in before {
    }
  }

  lemma ExactElsewhere(rows: Rows, workers: seq<Worker>, rows': Rows, workers': seq<Worker>,
                       id: string, r: string, t: Track)
    requires OthersKept(rows, workers, rows', workers', id) && Exact(rows, workers, t, r)
    requires rows'[id].payload.requestId != r
    ensures Exact(rows', workers', t, r)
  {
    forall c ensures Of(rows', workers', r, c) == Of(rows, workers, r, c) {
      OneClassChanges(rows, workers, rows', workers', id, r, c);
    }
  }

  /** The tracker counts one message as moved into a class. */
  predicate Moves(t: Track, t': Track, id: string, c: Class) {
    match c
    case Outstanding => t'.pending == t.pending + {id} && t'.done == t.done && t'.failed == t.failed
    case Succeeded => t'.pending == t.pending - {id} && t'.done == t.done + 1 && t'.failed == t.failed
    case GivenUp => t'.pending == t.pending - {id} && t'.done == t.done && t'.failed == t.failed + 1
  }

  /** A track that moves a message which was outstanding or unknown stays exact if and only if
      it moves it into the class the message is now in. */
  lemma ExactAfterMoveIff(rows: Rows, workers: seq<Worker>, rows': Rows, workers': seq<Worker>,
                          id: string, r: string, t: Track, t': Track, c: Class)
    requires OthersKept(rows, workers, rows', workers', id) && Exact(rows, workers, t, r)
    requires rows'[id].payload.requestId == r && Moves(t, t', id, c)
    requires id in rows ==> ClassOf(rows, workers, id) == Outstanding
    ensures Exact(rows', workers', t', r) <==> ClassOf(rows', workers', id) == c
  {
    OneClassChanges(rows, workers, rows', workers', id, r, Outstanding);
    OneClassChanges(rows, workers, rows', workers', id, r, Succeeded);
    OneClassChanges(rows, workers, rows', workers', id, r, GivenUp);
    AddSize(Of(rows, workers, r, Succeeded), id);
    AddSize(Of(rows, workers, r, GivenUp), id);
  }

  /** The class a mark settles its message into. */
  function Settled(mark: Mark): Class {
    match mark case DoneMark => Succeeded case FailMark => GivenUp case RequeueMark => Outstanding
  }
}
