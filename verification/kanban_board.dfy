/** The board value of src/components/KanbanBoard/Board.jsx: three columns of
    cards, the local card insertion and removal, and the projection of the
    server's status-grouped task list onto the columns.

    A card's `status` field is NOT kept in agreement with its column: a card
    appended after creation carries no status, and a card moved by the board
    library keeps its old one. No predicate here claims that agreement. */
module KanbanBoard {
  import opened Wrappers
  import Seqs
  import TaskUtils

  const TodoColumnId: int := 1
  const InProgressColumnId: int := 2
  const DoneColumnId: int := 3

  const TodoTitle: string := "To Do"
  const InProgressTitle: string := "In Progress"
  const DoneTitle: string := "Done"

  /** A user listed on a task. */
  datatype AssignedUser = AssignedUser(id: int, name: string, avatar: string)

  /** A task record as the server sends it. `createdAt` stands for the fields
      the board does not copy. */
  datatype Task = Task(
    id: int,
    title: string,
    description: string,
    status: string,
    estimatedTime: Option<int>,
    priority: Option<int>,
    projectId: int,
    assignedUsers: seq<AssignedUser>,
    createdAt: string)

  /** A card on the board. Status, project and assignees are absent on a card
      appended locally after creation. */
  datatype Card = Card(
    id: int,
    title: string,
    description: string,
    status: Option<string>,
    estimatedTime: Option<int>,
    priority: Option<int>,
    projectId: Option<int>,
    assignedUsers: Option<seq<AssignedUser>>)

  datatype Column = Column(id: int, title: string, cards: seq<Card>)

  datatype Board = Board(columns: seq<Column>)

  /** The ids and titles of the columns, in order: what every local edit of
      the board leaves alone. */
  function Layout(b: Board): seq<(int, string)>
  {
    seq(|b.columns|, i requires 0 <= i < |b.columns| => (b.columns[i].id, b.columns[i].title))
  }

  /** The fixed layout: To Do (1), In Progress (2), Done (3). */
  const StandardLayout: seq<(int, string)> :=
    [(TodoColumnId, TodoTitle), (InProgressColumnId, InProgressTitle), (DoneColumnId, DoneTitle)]

  /** The board with the three standard columns holding the given cards. */
  function ThreeColumns(todo: seq<Card>, inProgress: seq<Card>, done: seq<Card>): (b: Board)
    ensures Layout(b) == StandardLayout
    ensures |b.columns| == 3
    ensures b.columns[0].cards == todo && b.columns[1].cards == inProgress && b.columns[2].cards == done
  {
    Board([Column(TodoColumnId, TodoTitle, todo),
           Column(InProgressColumnId, InProgressTitle, inProgress),
           Column(DoneColumnId, DoneTitle, done)])
  }

  /** The board the component starts with and clears to before each reload. */
  function EmptyBoard(): (b: Board)
    ensures Layout(b) == StandardLayout
    ensures TotalCards(b) == 0
  {
    ThreeColumns([], [], [])
  }

  /** Number of cards over all columns. */
  function TotalCards(b: Board): nat
  {
    CardsIn(b.columns)
  }

  function CardsIn(columns: seq<Column>): nat
  {
    if columns == [] then 0 else |columns[0].cards| + CardsIn(columns[1..])
  }

  /** Some column holds a card with this id. */
  predicate HasCard(b: Board, cardId: int)
  {
    exists i, j :: 0 <= i < |b.columns| && 0 <= j < |b.columns[i].cards| && b.columns[i].cards[j].id == cardId
  }

  /** No id occurs twice in the whole board. */
  predicate UniqueCardIds(b: Board)
  {
    forall i, j, k, l ::
      0 <= i < |b.columns| && 0 <= j < |b.columns[i].cards| &&
      0 <= k < |b.columns| && 0 <= l < |b.columns[k].cards| &&
      b.columns[i].cards[j].id == b.columns[k].cards[l].id
      ==> i == k && j == l
  }

  // ---------------------------------------------------------------- removal

  /** `card.id !== cardId`, the test `removeCard` filters each column with. */
  function KeepsOtherIds(cardId: int): Card -> bool
  {
    (c: Card) => c.id != cardId
  }

  /** The cards of one column without those carrying `cardId`. */
  function RemoveById(cards: seq<Card>, cardId: int): (kept: seq<Card>)
    ensures |kept| <= |cards|
    ensures forall c :: c in kept <==> c in cards && c.id != cardId
  {
    Seqs.Filter(cards, KeepsOtherIds(cardId))
  }

  /** `removeCard(cardId)`: every column loses every card with that id and
      keeps its other cards in their order; ids, titles and column order stay. */
  function RemoveCard(b: Board, cardId: int): (r: Board)
    ensures Layout(r) == Layout(b)
    ensures !HasCard(r, cardId)
    ensures forall i :: 0 <= i < |r.columns| ==>
      forall c :: c in r.columns[i].cards <==> c in b.columns[i].cards && c.id != cardId
  {
    var r := Board(seq(|b.columns|, i requires 0 <= i < |b.columns| =>
      b.columns[i].(cards := RemoveById(b.columns[i].cards, cardId))));
    assert !HasCard(r, cardId) by {
      forall i, j | 0 <= i < |r.columns| && 0 <= j < |r.columns[i].cards|
        ensures r.columns[i].cards[j].id != cardId
      {
        assert r.columns[i].cards[j] in r.columns[i].cards;
      }
    }
    r
  }

  /** Removing inside a concatenated column removes in each part, so the
      cards that stay keep their relative order. */
  lemma RemoveByIdKeepsOrder(a: seq<Card>, b: seq<Card>, cardId: int)
    ensures RemoveById(a + b, cardId) == RemoveById(a, cardId) + RemoveById(b, cardId)
  {
    Seqs.FilterAppend(a, b, KeepsOtherIds(cardId));
  }

  /** The per-column contents after `RemoveCard`: exactly the filter. */
  lemma RemoveCardColumns(b: Board, cardId: int)
    ensures forall i :: 0 <= i < |b.columns| ==>
      RemoveCard(b, cardId).columns[i].cards == RemoveById(b.columns[i].cards, cardId)
  {
  }

  /** Removing an id that is on no card leaves the board as it was. */
  lemma RemoveAbsentIsNoOp(b: Board, cardId: int)
    requires !HasCard(b, cardId)
    ensures RemoveCard(b, cardId) == b
  {
    var r := RemoveCard(b, cardId);
    forall i | 0 <= i < |b.columns| ensures r.columns[i] == b.columns[i] {
      var cards := b.columns[i].cards;
      forall c | c in cards ensures KeepsOtherIds(cardId)(c) {
        var j :| 0 <= j < |cards| && cards[j] == c;
      }
      Seqs.FilterAllKept(cards, KeepsOtherIds(cardId));
    }
  }

  /** Removing twice is removing once. */
  lemma RemoveCardIdempotent(b: Board, cardId: int)
    ensures RemoveCard(RemoveCard(b, cardId), cardId) == RemoveCard(b, cardId)
  {
    RemoveAbsentIsNoOp(RemoveCard(b, cardId), cardId);
  }

  /** How many cards in these columns carry `cardId`. */
  function CopiesIn(columns: seq<Column>, cardId: int): nat
  {
    if columns == [] then 0
    else Seqs.Dropped(columns[0].cards, KeepsOtherIds(cardId)) + CopiesIn(columns[1..], cardId)
  }

  /** `RemoveCard` shrinks the board by exactly the number of cards with that
      id. */
  lemma {:induction false} RemoveCardCount(b: Board, cardId: int)
    ensures TotalCards(RemoveCard(b, cardId)) == TotalCards(b) - CopiesIn(b.columns, cardId)
  {
    RemoveCountFrom(b.columns, cardId);
  }

  lemma {:induction false} RemoveCountFrom(columns: seq<Column>, cardId: int)
    ensures CardsIn(RemoveCard(Board(columns), cardId).columns) == CardsIn(columns) - CopiesIn(columns, cardId)
  {
    if columns != [] {
      var r := RemoveCard(Board(columns), cardId).columns;
      assert r[1..] == RemoveCard(Board(columns[1..]), cardId).columns;
      Seqs.FilterLength(columns[0].cards, KeepsOtherIds(cardId));
      RemoveCountFrom(columns[1..], cardId);
    }
  }

  /** On a board whose ids are unique, removing a present id removes exactly
      one card, and removing an absent id removes none. */
  lemma RemoveCardCountUnique(b: Board, cardId: int)
    requires UniqueCardIds(b)
    ensures HasCard(b, cardId) ==> TotalCards(RemoveCard(b, cardId)) == TotalCards(b) - 1
    ensures !HasCard(b, cardId) ==> TotalCards(RemoveCard(b, cardId)) == TotalCards(b)
  {
    RemoveCardCount(b, cardId);
    if HasCard(b, cardId) {
      var i, j :| 0 <= i < |b.columns| && 0 <= j < |b.columns[i].cards| && b.columns[i].cards[j].id == cardId;
      CopiesOfUnique(b.columns, cardId, i, j);
    } else {
      CopiesOfAbsent(b.columns, cardId);
    }
  }

  lemma {:induction false} CopiesOfAbsent(columns: seq<Column>, cardId: int)
    requires !HasCard(Board(columns), cardId)
    ensures CopiesIn(columns, cardId) == 0
  {
    if columns != [] {
      forall c | c in columns[0].cards ensures KeepsOtherIds(cardId)(c) {
        var j :| 0 <= j < |columns[0].cards| && columns[0].cards[j] == c;
        assert columns[0].cards[j].id != cardId;
      }
      assert !HasCard(Board(columns[1..]), cardId) by {
        forall i, j | 0 <= i < |columns[1..]| && 0 <= j < |columns[1..][i].cards|
          ensures columns[1..][i].cards[j].id != cardId
        {
          assert columns[1..][i] == columns[i + 1];
        }
      }
      CopiesOfAbsent(columns[1..], cardId);
    }
  }

  /** Cards with this id in one column: the positions it occurs at. */
  lemma {:induction false} DroppedOfUnique(cards: seq<Card>, cardId: int, j: int)
    requires 0 <= j < |cards| && cards[j].id == cardId
    requires forall l :: 0 <= l < |cards| && cards[l].id == cardId ==> l == j
    ensures Seqs.Dropped(cards, KeepsOtherIds(cardId)) == 1
  {
    if j == 0 {
      forall c | c in cards[1..] ensures KeepsOtherIds(cardId)(c) {
        var l :| 0 <= l < |cards[1..]| && cards[1..][l] == c;
        assert cards[l + 1] == c;
      }
    } else {
      forall l | 0 <= l < |cards[1..]| && cards[1..][l].id == cardId ensures l == j - 1 {
        assert cards[l + 1].id == cardId;
      }
      DroppedOfUnique(cards[1..], cardId, j - 1);
    }
  }

  lemma {:induction false} CopiesOfUnique(columns: seq<Column>, cardId: int, i: int, j: int)
    requires UniqueCardIds(Board(columns))
    requires 0 <= i < |columns| && 0 <= j < |columns[i].cards| && columns[i].cards[j].id == cardId
    ensures CopiesIn(columns, cardId) == 1
  {
    var b := Board(columns);
    assert UniqueCardIds(Board(columns[1..])) by {
      forall a, c, k, l |
        0 <= a < |columns[1..]| && 0 <= c < |columns[1..][a].cards| &&
        0 <= k < |columns[1..]| && 0 <= l < |columns[1..][k].cards| &&
        columns[1..][a].cards[c].id == columns[1..][k].cards[l].id
        ensures a == k && c == l
      {
        assert columns[1..][a] == columns[a + 1] && columns[1..][k] == columns[k + 1];
        assert b.columns[a + 1].cards[c].id == b.columns[k + 1].cards[l].id;
      }
    }
    if i == 0 {
      forall l | 0 <= l < |columns[0].cards| && columns[0].cards[l].id == cardId ensures l == j {
        assert b.columns[0].cards[l].id == b.columns[0].cards[j].id;
      }
      DroppedOfUnique(columns[0].cards, cardId, j);
      assert !HasCard(Board(columns[1..]), cardId) by {
        forall a, c | 0 <= a < |columns[1..]| && 0 <= c < |columns[1..][a].cards|
          ensures columns[1..][a].cards[c].id != cardId
        {
          assert columns[1..][a] == columns[a + 1];
        }
      }
      CopiesOfAbsent(columns[1..], cardId);
    } else {
      forall c | c in columns[0].cards ensures KeepsOtherIds(cardId)(c) {
        var l :| 0 <= l < |columns[0].cards| && columns[0].cards[l] == c;
      }
      assert columns[1..][i - 1] == columns[i];
      CopiesOfUnique(columns[1..], cardId, i - 1, j);
    }
  }

  // -------------------------------------------------------------- insertion

  /** `handleAddCard(columnId, card)`: the card goes at the end of every
      column with that id; every other column is untouched; with no such
      column the board is unchanged. */
  function AddCard(b: Board, columnId: int, card: Card): (r: Board)
    ensures Layout(r) == Layout(b)
    ensures forall i :: 0 <= i < |b.columns| ==>
      r.columns[i].cards == (if b.columns[i].id == columnId then b.columns[i].cards + [card] else b.columns[i].cards)
    ensures (forall i :: 0 <= i < |b.columns| ==> b.columns[i].id != columnId) ==> r == b
  {
    Board(seq(|b.columns|, i requires 0 <= i < |b.columns| =>
      if b.columns[i].id == columnId then b.columns[i].(cards := b.columns[i].cards + [card])
      else b.columns[i]))
  }

  /** Removing a freshly added card (one whose id was not on the board)
      gives back the board it was added to. */
  lemma AddThenRemoveRestores(b: Board, columnId: int, card: Card)
    requires !HasCard(b, card.id)
    ensures RemoveCard(AddCard(b, columnId, card), card.id) == b
  {
    var added := AddCard(b, columnId, card);
    var keep := KeepsOtherIds(card.id);
    forall i | 0 <= i < |b.columns|
      ensures RemoveById(added.columns[i].cards, card.id) == b.columns[i].cards
    {
      var cards := b.columns[i].cards;
      forall c | c in cards ensures keep(c) {
        var j :| 0 <= j < |cards| && cards[j] == c;
      }
      Seqs.FilterAllKept(cards, keep);
      if b.columns[i].id == columnId {
        Seqs.FilterAppend(cards, [card], keep);
        assert Seqs.Filter([card], keep) == [];
      }
    }
  }

  /** On the standard layout a card added to a real column raises the count
      by one. */
  lemma AddCardCount(b: Board, columnId: int, card: Card)
    requires Layout(b) == StandardLayout
    ensures TotalCards(AddCard(b, columnId, card)) == TotalCards(b) + (if TaskUtils.IsColumnId(columnId) then 1 else 0)
  {
    var r := AddCard(b, columnId, card);
    assert Layout(b)[0].0 == b.columns[0].id && Layout(b)[1].0 == b.columns[1].id && Layout(b)[2].0 == b.columns[2].id;
    CardsInThree(r.columns);
    CardsInThree(b.columns);
  }

  lemma CardsInThree(columns: seq<Column>)
    requires |columns| == 3
    ensures CardsIn(columns) == |columns[0].cards| + |columns[1].cards| + |columns[2].cards|
  {
    var rest := columns[1..];
    assert rest[1..][1..] == [];
    assert CardsIn(rest[1..]) == |columns[2].cards| + CardsIn(rest[1..][1..]);
  }

  // ------------------------------------------------------------- projection

  /** `mapTasksToCards` on one task: the eight fields the board shows, all
      present on the card. */
  function TaskToCard(t: Task): (c: Card)
    ensures c.id == t.id && c.title == t.title && c.description == t.description
    ensures c.status == Some(t.status) && c.projectId == Some(t.projectId)
    ensures c.assignedUsers == Some(t.assignedUsers)
    ensures c.estimatedTime == t.estimatedTime && c.priority == t.priority
  {
    Card(t.id, t.title, t.description, Some(t.status), t.estimatedTime, t.priority,
         Some(t.projectId), Some(t.assignedUsers))
  }

  /** `mapTasksToCards`: one card per task, in the tasks' order, each holding
      the task's id, title, description, status, estimated time, priority,
      project and assignees and nothing else. */
  function MapTasksToCards(tasks: seq<Task>): (cards: seq<Card>)
    ensures |cards| == |tasks|
    ensures forall i :: 0 <= i < |tasks| ==>
      && cards[i].id == tasks[i].id && cards[i].title == tasks[i].title
      && cards[i].description == tasks[i].description && cards[i].status == Some(tasks[i].status)
      && cards[i].estimatedTime == tasks[i].estimatedTime && cards[i].priority == tasks[i].priority
      && cards[i].projectId == Some(tasks[i].projectId) && cards[i].assignedUsers == Some(tasks[i].assignedUsers)
  {
    seq(|tasks|, i requires 0 <= i < |tasks| => TaskToCard(tasks[i]))
  }

  /** The card keeps everything but the creation time: two tasks give the
      same card exactly when they differ at most in `createdAt`. */
  lemma TaskToCardForgetsOnlyCreatedAt(a: Task, b: Task)
    ensures TaskToCard(a) == TaskToCard(b) <==> a.(createdAt := b.createdAt) == b
  {
    if TaskToCard(a) == TaskToCard(b) {
      assert Some(a.status) == Some(b.status) && Some(a.projectId) == Some(b.projectId);
      assert Some(a.assignedUsers) == Some(b.assignedUsers);
    }
  }

  /** Mapping a concatenation maps each part. */
  lemma MapTasksToCardsAppend(a: seq<Task>, b: seq<Task>)
    ensures MapTasksToCards(a + b) == MapTasksToCards(a) + MapTasksToCards(b)
  {
  }

  /** The server's reply body: group name to the group's task list; `None`
      is a group with no `tasks` array. */
  type GroupedTasks = map<string, Option<seq<Task>>>

  /** `groupedTasks[key]?.tasks || []`. */
  function GroupTasks(grouped: GroupedTasks, key: string): (tasks: seq<Task>)
    ensures key !in grouped ==> tasks == []
    ensures key in grouped && grouped[key].None? ==> tasks == []
    ensures key in grouped && grouped[key].Some? ==> tasks == grouped[key].value
  {
    if key in grouped && grouped[key].Some? then grouped[key].value else []
  }

  /** The board built from a reply: "todo" in To Do, "in-progress" in In
      Progress, "completed" in Done. */
  function Project(grouped: GroupedTasks): (b: Board)
    ensures Layout(b) == StandardLayout
    ensures b.columns[0].cards == MapTasksToCards(GroupTasks(grouped, "todo"))
    ensures b.columns[1].cards == MapTasksToCards(GroupTasks(grouped, "in-progress"))
    ensures b.columns[2].cards == MapTasksToCards(GroupTasks(grouped, "completed"))
  {
    ThreeColumns(
      MapTasksToCards(GroupTasks(grouped, "todo")),
      MapTasksToCards(GroupTasks(grouped, "in-progress")),
      MapTasksToCards(GroupTasks(grouped, "completed")))
  }

  /** The column with id `k` is loaded from the group named
      `getStatusByColumnId(k)`: column id, status and column agree. */
  lemma ProjectUsesColumnStatus(grouped: GroupedTasks)
    ensures forall i :: 0 <= i < 3 ==>
      && TaskUtils.IsColumnId(Project(grouped).columns[i].id)
      && Project(grouped).columns[i].cards
         == MapTasksToCards(GroupTasks(grouped, TaskUtils.StatusByColumnId(Project(grouped).columns[i].id)))
  {
    var b := Project(grouped);
    assert Layout(b)[0].0 == b.columns[0].id && Layout(b)[1].0 == b.columns[1].id && Layout(b)[2].0 == b.columns[2].id;
  }

  /** Every card on a projected board came from the reply's group for its
      column. */
  lemma ProjectCardsComeFromGroups(grouped: GroupedTasks, i: int, j: int)
    requires 0 <= i < 3 && 0 <= j < |Project(grouped).columns[i].cards|
    ensures var key := TaskUtils.StatusByColumnId(i + 1);
      && j < |GroupTasks(grouped, key)|
      && Project(grouped).columns[i].cards[j] == TaskToCard(GroupTasks(grouped, key)[j])
  {
    ProjectUsesColumnStatus(grouped);
    var b := Project(grouped);
    assert Layout(b)[i].0 == b.columns[i].id;
  }
}
