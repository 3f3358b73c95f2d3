/** The in-memory board: the reference state behind the provider contract. */
module BoardProvider {
  import opened Wrappers

  datatype FieldKind = SingleSelectKind | TextKind | NumberKind | DateKind

  datatype FieldValue =
    | SingleSelect(option: string) | Text(text: string) | Number(number: u64) | Date(date: string)

  function KindOf(value: FieldValue): FieldKind
  {
    match value
    case SingleSelect(_) => SingleSelectKind
    case Text(_) => TextKind
    case Number(_) => NumberKind
    case Date(_) => DateKind
  }

  datatype Item = Item(id: string, itemType: string, title: string, body: string, status: string)

  datatype Edge = Edge(blocked: string, blocks: string)

  datatype Board = Board(
    items: map<string, Item>, statuses: set<string>, fields: map<string, FieldKind>,
    values: map<(string, string), FieldValue>, edges: set<Edge>, nextId: nat)

  datatype Error =
    | ItemNotFound(id: string) | StatusNotFound(name: string) | FieldNotFound(field: string)
    | FieldTypeMismatch(mismatched: string) | DuplicateEdge(edge: Edge)

  datatype Result<T> = Ok(value: T) | Err(error: Error)

  datatype Unit = Unit

  /** Item ids are the keys they are stored under. */
  ghost predicate ValidBoard(b: Board)
  {
    forall id :: id in b.items ==> b.items[id].id == id
  }

  // ------------------------------------------------------- operations on the value

  function ReadItem(b: Board, id: string): Result<Item>
  {
    if id in b.items then Ok(b.items[id]) else Err(ItemNotFound(id))
  }

  function ReadField(b: Board, id: string, field: string): Result<Option<FieldValue>>
  {
    if id !in b.items then Err(ItemNotFound(id))
    else if field !in b.fields then Err(FieldNotFound(field))
    else Ok(if (id, field) in b.values then Some(b.values[(id, field)]) else None)
  }

  /** A write: what it answers, and the board after it. A refused write changes nothing. */
  datatype Write =
    | UpdateBody(id: string, title: string, body: string)
    | SetStatus(id: string, status: string)
    | SetField(id: string, field: string, value: FieldValue)
    | AddEdge(edge: Edge)
    | RemoveEdge(edge: Edge)

  function Answer(b: Board, w: Write): Result<Unit>
  {
    match w
    case UpdateBody(id, _, _) => if id in b.items then Ok(Unit.Unit) else Err(ItemNotFound(id))
    case SetStatus(id, status) =>
      if id !in b.items then Err(ItemNotFound(id))
      else if status !in b.statuses then Err(StatusNotFound(status)) else Ok(Unit.Unit)
    case SetField(id, field, value) =>
      if id !in b.items then Err(ItemNotFound(id))
      else if field !in b.fields then Err(FieldNotFound(field))
      else if b.fields[field] != KindOf(value) then Err(FieldTypeMismatch(field)) else Ok(Unit.Unit)
    case AddEdge(edge) =>
      if edge.blocked !in b.items then Err(ItemNotFound(edge.blocked))
      else if edge.blocks !in b.items then Err(ItemNotFound(edge.blocks))
      else if edge in b.edges then Err(DuplicateEdge(edge)) else Ok(Unit.Unit)
    case RemoveEdge(edge) =>
      if edge.blocked !in b.items then Err(ItemNotFound(edge.blocked))
      else if edge.blocks !in b.items then Err(ItemNotFound(edge.blocks)) else Ok(Unit.Unit)
  }

  function Written(b: Board, w: Write): Board
  {
    if Answer(b, w).Err? then b
    else
      match w
      case UpdateBody(id, title, body) => b.(items := b.items[id := b.items[id].(title := title, body := body)])
      case SetStatus(id, status) => b.(items := b.items[id := b.items[id].(status := status)])
      case SetField(id, field, value) => b.(values := b.values[(id, field) := value])
      case AddEdge(edge) => b.(edges := b.edges + {edge})
      case RemoveEdge(edge) => b.(edges := b.edges - {edge})
  }

  /** A field value is accepted only of the field's own kind. */
  predicate IsOfKind(kind: FieldKind, value: FieldValue)
  {
    || (kind.SingleSelectKind? && value.SingleSelect?) || (kind.TextKind? && value.Text?)
    || (kind.NumberKind? && value.Number?) || (kind.DateKind? && value.Date?)
  }

  ghost predicate HasEnds(b: Board, edge: Edge) { edge.blocked in b.items && edge.blocks in b.items }

  /** A write is accepted exactly when everything it names exists, fits, and is not there twice. */
  lemma AcceptedExactly(b: Board, w: Write)
    ensures Answer(b, w).Ok? <==>
            match w
            case UpdateBody(id, _, _) => id in b.items
            case SetStatus(id, status) => id in b.items && status in b.statuses
            case SetField(id, field, value) => id in b.items && field in b.fields && IsOfKind(b.fields[field], value)
            case AddEdge(edge) => HasEnds(b, edge) && edge !in b.edges
            case RemoveEdge(edge) => HasEnds(b, edge)
    ensures Answer(b, w).Err? ==> IsRefused(b, w, Answer(b, w).error) && Written(b, w) == b
  {
  }

  /** The error names something of the write that is missing, wrong, or there already. */
  ghost predicate IsRefused(b: Board, w: Write, e: Error)
  {
    match e
    case ItemNotFound(id) =>
      && id !in b.items
      && if w.AddEdge? || w.RemoveEdge? then id == w.edge.blocked || id == w.edge.blocks else id == w.id
    case StatusNotFound(name) => w.SetStatus? && name == w.status && name !in b.statuses && w.id in b.items
    case FieldNotFound(field) => w.SetField? && field == w.field && field !in b.fields && w.id in b.items
    case FieldTypeMismatch(field) =>
      w.SetField? && field == w.field && field in b.fields && !IsOfKind(b.fields[field], w.value) && w.id in b.items
    case DuplicateEdge(edge) => w.AddEdge? && edge == w.edge && edge in b.edges && HasEnds(b, edge)
  }

  /** An accepted write is what a read sees next, and it touches nothing else of the board. */
  lemma WritesAreReadBack(b: Board, w: Write)
    requires Answer(b, w).Ok?
    ensures var a := Written(b, w);
            && a.items.Keys == b.items.Keys && a.fields == b.fields && a.statuses == b.statuses && a.nextId == b.nextId
            && (w.UpdateBody? ==> a.items[w.id] == Item(b.items[w.id].id, b.items[w.id].itemType, w.title, w.body,
                                                        b.items[w.id].status))
            && (w.SetStatus? ==> a.items[w.id] == Item(b.items[w.id].id, b.items[w.id].itemType, b.items[w.id].title,
                                                       b.items[w.id].body, w.status))
            && (w.SetField? ==> ReadField(a, w.id, w.field) == Ok(Some(w.value)))
            && (forall other :: other in b.items && !((w.UpdateBody? || w.SetStatus?) && w.id == other)
                  ==> a.items[other] == b.items[other])
            && (forall key :: !(w.SetField? && key == (w.id, w.field)) ==>
                  (key in a.values <==> key in b.values) && (key in b.values ==> a.values[key] == b.values[key]))
            && (forall edge :: edge in a.edges <==>
                  (edge in b.edges && w != RemoveEdge(edge)) || w == AddEdge(edge))
    ensures ValidBoard(b) ==> ValidBoard(Written(b, w))
  {
    if w.UpdateBody? || w.SetStatus? { assert w.id in b.items; }
    assert Written(b, w).items.Keys == b.items.Keys;
  }

  // --------------------------------------------------------------- the provider object

  /** The provider: its maps are updated in place, and every state it has been in is remembered. */
  class Provider {
    var board: Board
    ghost var held: seq<Board>

    ghost predicate Valid() reads this { ValidBoard(board) && held != [] && held[|held| - 1] == board }

    constructor (board: Board)
      requires ValidBoard(board)
      ensures Valid() && this.board == board && held == [board]
    {
      this.board, held := board, [board];
    }

    /** Someone else edits the board. */
    method Drift(edited: Board)
      requires Valid() && ValidBoard(edited)
      modifies this
      ensures Valid() && board == edited && held == old(held) + [edited]
    {
      board, held := edited, held + [edited];
    }

    method CreateItem(itemType: string, title: string, body: string, idOf: nat -> string) returns (id: string)
      requires Valid()
      modifies this
      ensures Valid() && held == old(held) + [board]
      ensures id == idOf(old(board).nextId + 1)
      ensures board == old(board).(nextId := old(board).nextId + 1,
                                   items := old(board).items[id := Item(id, itemType, title, body, "")])
    {
      id := idOf(board.nextId + 1);
      board := board.(nextId := board.nextId + 1, items := board.items[id := Item(id, itemType, title, body, "")]);
      held := held + [board];
    }

    method Apply(w: Write) returns (r: Result<Unit>)
      requires Valid()
      modifies this
      ensures Valid() && r == Answer(old(board), w) && board == Written(old(board), w)
      ensures held == if r.Ok? then old(held) + [board] else old(held)
      ensures r.Ok? && w.SetField? ==> ReadField(board, w.id, w.field) == Ok(Some(w.value))
      ensures r.Ok? && w.SetStatus? ==> ReadItem(board, w.id).Ok? && ReadItem(board, w.id).value.status == w.status
      ensures r.Ok? && w.UpdateBody? ==>
                ReadItem(board, w.id).Ok? && ReadItem(board, w.id).value.title == w.title
                && ReadItem(board, w.id).value.body == w.body
    {
      if Answer(board, w).Ok? { WritesAreReadBack(board, w); }
      match w {
        case UpdateBody(id, title, body) =>
          if id !in board.items { return Err(ItemNotFound(id)); }
          board := board.(items := board.items[id := board.items[id].(title := title, body := body)]);
        case SetStatus(id, status) =>
          if id !in board.items { return Err(ItemNotFound(id)); }
          if status !in board.statuses { return Err(StatusNotFound(status)); }
          board := board.(items := board.items[id := board.items[id].(status := status)]);
        case SetField(id, field, value) =>
          if id !in board.items { return Err(ItemNotFound(id)); }
          if field !in board.fields { return Err(FieldNotFound(field)); }
          if board.fields[field] != KindOf(value) { return Err(FieldTypeMismatch(field)); }
          board := board.(values := board.values[(id, field) := value]);
        case AddEdge(edge) =>
          if edge.blocked !in board.items { return Err(ItemNotFound(edge.blocked)); }
          if edge.blocks !in board.items { return Err(ItemNotFound(edge.blocks)); }
          if edge in board.edges { return Err(DuplicateEdge(edge)); }
          board := board.(edges := board.edges + {edge});
        case RemoveEdge(edge) =>
          if edge.blocked !in board.items { return Err(ItemNotFound(edge.blocked)); }
          if edge.blocks !in board.items { return Err(ItemNotFound(edge.blocks)); }
          board := board.(edges := board.edges - {edge});
      }
      held := held + [board];
      r := Ok(Unit.Unit);
    }
  }
}
