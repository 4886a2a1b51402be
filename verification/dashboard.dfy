/** The dashboard's pure logic: bucketing the fetched leads into the four
    Kanban columns, the pipeline statistics, the drag-and-drop move between
    columns, and the "High Value" tag. */
module Dashboard {
  import opened Results
  import opened LeadSchema
  import LeadsService

  /** A lead as the dashboard query returns it. */
  datatype Card = Card(
    id: string, name: string, budget: int, status: Status,
    serviceType: Option<string>, phone: string)

  /** The fields of a stored lead the dashboard asks for. */
  function CardOf(l: Lead): Card {
    Card(l.id, l.name, l.budget, l.status, l.serviceType, l.phone)
  }

  /** The statuses that have a column; MEETING_BOOKED and LOST have none. */
  const Columns: set<Status> := {New, Qualified, Won, Rejected}

  /** The board: one card list per column, keyed by the column's status. */
  type Board = map<Status, seq<Card>>

  /** The board has exactly the four columns. */
  predicate Shaped(b: Board) {
    b.Keys == Columns
  }

  /** Every card sits in the column of its own status. */
  predicate WellFormed(b: Board) {
    Shaped(b) && forall s, k :: s in b && 0 <= k < |b[s]| ==> b[s][k].status == s
  }

  const EmptyBoard: Board := map[New := [], Qualified := [], Rejected := [], Won := []]

  /** The cards of `cards` with status `s`, in their original order: the
      reference definition a column is compared with. */
  function Filter(cards: seq<Card>, s: Status): seq<Card> {
    if cards == [] then []
    else Filter(cards[..|cards| - 1], s) + (if cards[|cards| - 1].status == s then [cards[|cards| - 1]] else [])
  }

  /** A filtered column holds exactly the input's cards of that status. */
  lemma {:induction false} FilterMembers(cards: seq<Card>, s: Status)
    ensures forall c :: c in Filter(cards, s) <==> c in cards && c.status == s
  {
    if cards != [] {
      var init := cards[..|cards| - 1];
      assert cards == init + [cards[|cards| - 1]];
      FilterMembers(init, s);
    }
  }

  /** Filtering one more card extends the count and the sum by that card
      exactly when it has the status. */
  lemma FilterStep(init: seq<Card>, last: Card, s: Status)
    ensures Filter(init + [last], s) == Filter(init, s) + (if last.status == s then [last] else [])
    ensures |Filter(init + [last], s)| == |Filter(init, s)| + (if last.status == s then 1 else 0)
    ensures Sum(Filter(init + [last], s)) == Sum(Filter(init, s)) + (if last.status == s then last.budget else 0)
  {
    assert (init + [last])[..|init|] == init;
    if last.status == s {
      var f := Filter(init, s) + [last];
      assert Filter(init + [last], s) == f;
      assert f[..|f| - 1] == Filter(init, s);
      assert f != [] && f[|f| - 1] == last;
      assert Sum(f) == Sum(f[..|f| - 1]) + last.budget;
    } else {
      assert Filter(init + [last], s) == Filter(init, s);
    }
  }

  /** One step of the `forEach`: a card whose status has a column is pushed
      onto that column's end; any other card is dropped. */
  function Place(b: Board, c: Card): Board {
    if c.status in b then b[c.status := b[c.status] + [c]] else b
  }

  /** The column bucketing run when the query data arrives. */
  function Bucket(cards: seq<Card>): (b: Board)
    ensures WellFormed(b)
  {
    if cards == [] then EmptyBoard
    else Place(Bucket(cards[..|cards| - 1]), cards[|cards| - 1])
  }

  /** The effect hook: new data rebuilds the board; no data keeps it. */
  function Refresh(b: Board, data: Option<seq<Card>>): (r: Board)
    ensures data.None? ==> r == b
    ensures data.Some? ==> Shaped(r)
    ensures data.Some? ==> forall s :: s in Columns ==> r[s] == Filter(data.value, s)
  {
    match data
    case None => b
    case Some(cards) => BucketIsFilter(cards); Bucket(cards)
  }

  /** Each column holds exactly the cards of its status, in input order. */
  lemma {:induction false} BucketIsFilter(cards: seq<Card>)
    ensures forall s :: s in Columns ==> Bucket(cards)[s] == Filter(cards, s)
  {
    if cards != [] {
      BucketIsFilter(cards[..|cards| - 1]);
    }
  }

  /** A card whose status has no column appears in no column. */
  lemma UnshownStatusesHidden(cards: seq<Card>, c: Card)
    requires c in cards && c.status !in Columns
    ensures forall s :: s in Columns ==> c !in Bucket(cards)[s]
  {
    BucketIsFilter(cards);
    forall s | s in Columns
      ensures c !in Bucket(cards)[s]
    {
      FilterMembers(cards, s);
    }
  }

  /** A card whose status has a column appears in that column. */
  lemma ShownStatusesPlaced(cards: seq<Card>, c: Card)
    requires c in cards && c.status in Columns
    ensures c in Bucket(cards)[c.status]
  {
    BucketIsFilter(cards);
    FilterMembers(cards, c.status);
  }

  /** The running total of budgets, summed left to right like `reduce`. */
  function Sum(cards: seq<Card>): int {
    if cards == [] then 0 else Sum(cards[..|cards| - 1]) + cards[|cards| - 1].budget
  }

  /** The "Pipeline Value" statistic: the sum of all fetched budgets, or 0
      before data arrives. */
  function TotalValue(data: Option<seq<Card>>): (r: int)
    ensures data.None? ==> r == 0
    ensures data.Some? ==> (r ==
      Sum(Filter(data.value, New)) + Sum(Filter(data.value, Qualified)) + Sum(Filter(data.value, Won))
      + Sum(Filter(data.value, Rejected)) + Sum(Filter(data.value, MeetingBooked)) + Sum(Filter(data.value, Lost)))
  {
    match data
    case None => 0
    case Some(cards) => Partition(cards); Sum(cards)
  }

  /** The "Active Leads" statistic: the number of fetched leads. */
  function TotalLeads(data: Option<seq<Card>>): (r: nat)
    ensures data.None? ==> r == 0
    ensures data.Some? ==> (r ==
      |Filter(data.value, New)| + |Filter(data.value, Qualified)| + |Filter(data.value, Won)|
      + |Filter(data.value, Rejected)| + |Filter(data.value, MeetingBooked)| + |Filter(data.value, Lost)|)
  {
    match data
    case None => 0
    case Some(cards) => Partition(cards); |cards|
  }

  /** The statistics cover every fetched lead, also those in no column:
      summing the four columns misses exactly the MEETING_BOOKED and LOST
      leads. */
  lemma {:induction false} StatsCountHiddenLeads(cards: seq<Card>)
    ensures TotalValue(Some(cards)) ==
      Sum(Bucket(cards)[New]) + Sum(Bucket(cards)[Qualified]) + Sum(Bucket(cards)[Won])
      + Sum(Bucket(cards)[Rejected]) + Sum(Filter(cards, MeetingBooked)) + Sum(Filter(cards, Lost))
    ensures TotalLeads(Some(cards)) ==
      |Bucket(cards)[New]| + |Bucket(cards)[Qualified]| + |Bucket(cards)[Won]|
      + |Bucket(cards)[Rejected]| + |Filter(cards, MeetingBooked)| + |Filter(cards, Lost)|
  {
    BucketIsFilter(cards);
    Partition(cards);
  }

  /** Every card has one of the six statuses, so the six filters split
      both the count and the budget sum. */
  lemma {:induction false} Partition(cards: seq<Card>)
    ensures Sum(cards) ==
      Sum(Filter(cards, New)) + Sum(Filter(cards, Qualified)) + Sum(Filter(cards, Won))
      + Sum(Filter(cards, Rejected)) + Sum(Filter(cards, MeetingBooked)) + Sum(Filter(cards, Lost))
    ensures |cards| ==
      |Filter(cards, New)| + |Filter(cards, Qualified)| + |Filter(cards, Won)|
      + |Filter(cards, Rejected)| + |Filter(cards, MeetingBooked)| + |Filter(cards, Lost)|
  {
    if cards != [] {
      var init := cards[..|cards| - 1];
      var last := cards[|cards| - 1];
      assert cards == init + [last];
      Partition(init);
      FilterStep(init, last, New);
      FilterStep(init, last, Qualified);
      FilterStep(init, last, Won);
      FilterStep(init, last, Rejected);
      FilterStep(init, last, MeetingBooked);
      FilterStep(init, last, Lost);
    }
  }

  /** A card at an index of a column. */
  datatype Location = Location(droppableId: Status, index: int)

  /** What the drag library reports when a drag ends. */
  datatype DragResult = DragResult(draggableId: string, source: Location, destination: Option<Location>)

  /** The status update sent to the server. */
  datatype StatusRequest = StatusRequest(id: string, status: Status)

  /** The board after the drag, the request sent (if any) and whether an
      error was logged because the request failed. */
  datatype DragOutcome = DragOutcome(board: Board, request: Option<StatusRequest>, errorLogged: bool)

  /** A drag between two different columns. */
  predicate CrossColumn(r: DragResult) {
    r.destination.Some? && r.destination.value.droppableId != r.source.droppableId
  }

  /** What the drag library guarantees: both ends name columns, and a
      cross-column drag has an existing source index and a destination
      index at most the destination column's length. */
  predicate ValidDrag(b: Board, r: DragResult) {
    && Shaped(b)
    && r.source.droppableId in Columns
    && (r.destination.Some? ==> r.destination.value.droppableId in Columns)
    && (CrossColumn(r) ==>
          && 0 <= r.source.index < |b[r.source.droppableId]|
          && 0 <= r.destination.value.index <= |b[r.destination.value.droppableId]|)
  }

  /** `splice(i, 1)`: the column without its element at `i`. */
  function Remove(s: seq<Card>, i: int): (r: seq<Card>)
    requires 0 <= i < |s|
    ensures |r| == |s| - 1
    ensures forall k :: 0 <= k < i ==> r[k] == s[k]
    ensures forall k :: i <= k < |r| ==> r[k] == s[k + 1]
  {
    s[..i] + s[i + 1..]
  }

  /** `splice(j, 0, c)`: the column with `c` inserted before index `j`. */
  function Insert(s: seq<Card>, j: int, c: Card): (r: seq<Card>)
    requires 0 <= j <= |s|
    ensures |r| == |s| + 1
    ensures r[j] == c
    ensures forall k :: 0 <= k < j ==> r[k] == s[k]
    ensures forall k :: j < k < |r| ==> r[k] == s[k - 1]
  {
    s[..j] + [c] + s[j..]
  }

  /** `onDragEnd`. A drag with no destination or within one column changes
      nothing and sends nothing. Otherwise the card leaves its source
      index, takes the destination's status, lands at the destination
      index, and the status update is sent; its failure is only logged and
      the board keeps the move. */
  function OnDragEnd(b: Board, r: DragResult, backendFails: bool): (o: DragOutcome)
    requires ValidDrag(b, r)
    ensures !CrossColumn(r) ==> o == DragOutcome(b, None, false)
    ensures CrossColumn(r) ==>
      var src := r.source.droppableId;
      var dst := r.destination.value.droppableId;
      var i := r.source.index;
      var j := r.destination.value.index;
      && Shaped(o.board)
      && |o.board[src]| == |b[src]| - 1
      && (forall k :: 0 <= k < i ==> o.board[src][k] == b[src][k])
      && (forall k :: i <= k < |b[src]| - 1 ==> o.board[src][k] == b[src][k + 1])
      && |o.board[dst]| == |b[dst]| + 1
      && o.board[dst][j] == b[src][i].(status := dst)
      && (forall k :: 0 <= k < j ==> o.board[dst][k] == b[dst][k])
      && (forall k :: j < k <= |b[dst]| ==> o.board[dst][k] == b[dst][k - 1])
      && (forall s :: s in Columns && s != src && s != dst ==> o.board[s] == b[s])
      && o.request == Some(StatusRequest(r.draggableId, dst))
      && o.errorLogged == backendFails
  {
    if !CrossColumn(r) then DragOutcome(b, None, false)
    else
      var src := r.source.droppableId;
      var dst := r.destination.value.droppableId;
      var moved := b[src][r.source.index];
      var sourceCol := Remove(b[src], r.source.index);
      var destCol := Insert(b[dst], r.destination.value.index, moved.(status := dst));
      DragOutcome(b[src := sourceCol][dst := destCol], Some(StatusRequest(r.draggableId, dst)), backendFails)
  }

  /** The number of cards on the board. */
  function CardCount(b: Board): int
    requires Shaped(b)
  {
    |b[New]| + |b[Qualified]| + |b[Won]| + |b[Rejected]|
  }

  /** The ids of a column, in order. */
  function Ids(s: seq<Card>): (r: seq<string>)
    ensures |r| == |s|
    ensures forall k :: 0 <= k < |s| ==> r[k] == s[k].id
  {
    seq(|s|, k requires 0 <= k < |s| => s[k].id)
  }

  /** The ids on the board, as a multiset. */
  function BoardIds(b: Board): multiset<string>
    requires Shaped(b)
  {
    multiset(Ids(b[New])) + multiset(Ids(b[Qualified])) + multiset(Ids(b[Won])) + multiset(Ids(b[Rejected]))
  }

  /** Removing index `i` removes exactly that card's id. */
  lemma RemoveIds(s: seq<Card>, i: int)
    requires 0 <= i < |s|
    ensures multiset(Ids(s)) == multiset(Ids(Remove(s, i))) + multiset{s[i].id}
  {
    var t := Ids(s);
    assert Ids(Remove(s, i)) == t[..i] + t[i + 1..];
    assert t == t[..i] + [t[i]] + t[i + 1..];
  }

  /** Inserting a card adds exactly its id. */
  lemma InsertIds(s: seq<Card>, j: int, c: Card)
    requires 0 <= j <= |s|
    ensures multiset(Ids(Insert(s, j, c))) == multiset(Ids(s)) + multiset{c.id}
  {
    var t := Ids(s);
    assert Ids(Insert(s, j, c)) == t[..j] + [c.id] + t[j..];
    assert t == t[..j] + t[j..];
  }

  /** Replacing one column changes the board's ids by that column's ids. */
  lemma BoardIdsUpdate(b: Board, s: Status, col: seq<Card>)
    requires Shaped(b) && s in Columns
    ensures Shaped(b[s := col])
    ensures BoardIds(b[s := col]) + multiset(Ids(b[s])) == BoardIds(b) + multiset(Ids(col))
  {
  }

  /** The ids on the board determine its card count. */
  lemma CardCountIsIdCount(b: Board)
    requires Shaped(b)
    ensures CardCount(b) == |BoardIds(b)|
  {
  }

  /** A move neither loses nor duplicates a card: the board keeps its
      multiset of ids. */
  lemma MovePreservesIds(b: Board, r: DragResult, backendFails: bool)
    requires ValidDrag(b, r)
    ensures Shaped(OnDragEnd(b, r, backendFails).board)
    ensures BoardIds(OnDragEnd(b, r, backendFails).board) == BoardIds(b)
  {
    if CrossColumn(r) {
      var src := r.source.droppableId;
      var dst := r.destination.value.droppableId;
      var i := r.source.index;
      var j := r.destination.value.index;
      var moved := b[src][i];
      var sourceCol := Remove(b[src], i);
      var destCol := Insert(b[dst], j, moved.(status := dst));
      var b1 := b[src := sourceCol];
      var b2 := b1[dst := destCol];
      assert OnDragEnd(b, r, backendFails).board == b2;
      RemoveIds(b[src], i);
      InsertIds(b[dst], j, moved.(status := dst));
      BoardIdsUpdate(b, src, sourceCol);
      assert b1[dst] == b[dst];
      BoardIdsUpdate(b1, dst, destCol);
      assert BoardIds(b2) == BoardIds(b) by {
        assert BoardIds(b1) + multiset(Ids(b[src])) == BoardIds(b) + multiset(Ids(sourceCol));
        assert BoardIds(b2) + multiset(Ids(b[dst])) == BoardIds(b1) + multiset(Ids(destCol));
      }
    }
  }

  /** A move keeps the number of cards on the board. */
  lemma MovePreservesCardCount(b: Board, r: DragResult, backendFails: bool)
    requires ValidDrag(b, r)
    ensures Shaped(OnDragEnd(b, r, backendFails).board)
    ensures CardCount(OnDragEnd(b, r, backendFails).board) == CardCount(b)
  {
    MovePreservesIds(b, r, backendFails);
    CardCountIsIdCount(b);
    CardCountIsIdCount(OnDragEnd(b, r, backendFails).board);
  }

  /** A move keeps every card in the column of its status. */
  lemma MovePreservesWellFormed(b: Board, r: DragResult, backendFails: bool)
    requires WellFormed(b) && ValidDrag(b, r)
    ensures WellFormed(OnDragEnd(b, r, backendFails).board)
  {
  }

  /** Dragging a card back to where it came from restores the board. */
  lemma MoveRoundTrip(b: Board, src: Status, i: int, dst: Status, j: int, id: string, f1: bool, f2: bool)
    requires WellFormed(b)
    requires src in Columns && dst in Columns && src != dst
    requires 0 <= i < |b[src]| && 0 <= j <= |b[dst]|
    ensures
      var there := DragResult(id, Location(src, i), Some(Location(dst, j)));
      var back := DragResult(id, Location(dst, j), Some(Location(src, i)));
      var b1 := OnDragEnd(b, there, f1).board;
      ValidDrag(b1, back) && OnDragEnd(b1, back, f2).board == b
  {
    var there := DragResult(id, Location(src, i), Some(Location(dst, j)));
    var back := DragResult(id, Location(dst, j), Some(Location(src, i)));
    var b1 := OnDragEnd(b, there, f1).board;
    assert ValidDrag(b1, back);
    var b2 := OnDragEnd(b1, back, f2).board;
    assert b[src][i].status == src;
    assert b2[dst] == b[dst];
    assert b2[src] == b[src];
    forall s | s in Columns
      ensures b2[s] == b[s]
    {
    }
    assert b2.Keys == b.Keys;
  }

  /** The "High Value" tag. */
  predicate HighValue(c: Card)
    ensures HighValue(c) <==> LeadsService.TriageBudget(c.budget).status == Qualified
  {
    c.budget > 50000
  }

  /** A freshly created lead wears the "High Value" tag exactly when triage
      qualified it. */
  lemma HighValueIffAutoQualified(leads: seq<Lead>, input: LeadsService.CreateLeadInput, id: string, now: int)
    requires LeadsService.CreateLead(leads, input, id, now).result.Ok?
    ensures HighValue(CardOf(LeadsService.CreateLead(leads, input, id, now).result.value))
        <==> LeadsService.CreateLead(leads, input, id, now).result.value.status == Qualified
  {
  }
}
