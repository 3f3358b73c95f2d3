/**
The write-through cache over a board that other parties may edit at any
moment, in particular between a write and its read-back.
 */
module BoardCache {
  import opened Wrappers
  import opened BoardProvider

  datatype CachedItem = CachedItem(item: Item, syncedAt: nat)

  /** One side of a divergence; bodies appear only as their version. */
  datatype Divergence =
    | StatusIs(status: string) | FieldIs(field: string, value: FieldValue) | FieldCleared(cleared: string)
    | BodyIs(version: nat) | TitleIs(title: string)

  datatype Event = BoardDiverged(item: string, expected: Divergence, actual: Divergence)

  /** The cache over the board it wraps; `versionOf` digests a body. */
  datatype Cache = Cache(items: map<string, CachedItem>, versions: map<string, nat>, events: seq<Event>,
                         generation: nat)

  const EMPTY: Cache := Cache(map[], map[], [], 0)

  // ------------------------------------------------------------ the cache as a value

  /** Edits other parties make at one point: `None` is no edit. */
  type Drift = Option<Board>

  function Refreshed(c: Cache, versionOf: string -> nat, item: Item, id: string, now: nat): Cache
  {
    c.(items := c.items[id := CachedItem(item, now)], versions := c.versions[id := versionOf(item.body)],
       generation := c.generation + 1)
  }

  /** The divergences are recorded: the events are appended, and the entry bears the last record's clock reading. */
  function Recorded(c: Cache, versionOf: string -> nat, actual: Item, found: seq<Event>, clock: nat -> nat): Cache
  {
    if found == [] then c
    else
      Refreshed(c, versionOf, actual, actual.id, clock(|found| - 1))
      .(events := c.events + found, generation := c.generation + |found|)
  }

  /** What read-back showed where the write assumed something else, axis by axis. */
  function Divergences(versionOf: string -> nat, observed: bool, w: Write, actual: Item,
                       value: Option<FieldValue>): seq<Event>
  {
    match w
    case UpdateBody(id, title, body) =>
      (if observed && versionOf(actual.body) != versionOf(body)
       then [BoardDiverged(id, BodyIs(versionOf(body)), BodyIs(versionOf(actual.body)))] else [])
      + (if actual.title != title then [BoardDiverged(id, TitleIs(title), TitleIs(actual.title))] else [])
    case SetStatus(id, status) =>
      if actual.status != status then [BoardDiverged(id, StatusIs(status), StatusIs(actual.status))] else []
    case SetField(id, field, written) =>
      if value == Some(written) then []
      else [BoardDiverged(id, FieldIs(field, written),
                          if value.Some? then FieldIs(field, value.value) else FieldCleared(field))]
    case AddEdge(_) => []
    case RemoveEdge(_) => []
  }

  predicate IsCachedWrite(w: Write) { w.UpdateBody? || w.SetStatus? || w.SetField? }

  /** An event is honest: it names the write's own value and a different one that was really read. */
  ghost predicate IsHonest(versionOf: string -> nat, w: Write, actual: Item, value: Option<FieldValue>, e: Event)
  {
    && IsCachedWrite(w) && e.item == w.id && e.expected != e.actual
    && match w
       case UpdateBody(_, title, body) =>
         || (e.expected == BodyIs(versionOf(body)) && e.actual == BodyIs(versionOf(actual.body)))
         || (e.expected == TitleIs(title) && e.actual == TitleIs(actual.title))
       case SetStatus(_, status) => e.expected == StatusIs(status) && e.actual == StatusIs(actual.status)
       case SetField(_, field, written) =>
         && e.expected == FieldIs(field, written)
         && e.actual == (if value.Some? then FieldIs(field, value.value) else FieldCleared(field))
       case _ => false
  }

  /**
  Events appear exactly when the read-back differs from the write: on the
  title, the status and the field always; on the body when its version differs
  and the cache had observed the item before.
   */
  lemma EventsAreExact(versionOf: string -> nat, observed: bool, w: Write, actual: Item, value: Option<FieldValue>)
    ensures var events := Divergences(versionOf, observed, w, actual, value);
            && (forall k :: 0 <= k < |events| ==> IsHonest(versionOf, w, actual, value, events[k]))
            && (w.UpdateBody? ==>
                  (events == [] <==>
                     actual.title == w.title && (observed ==> versionOf(actual.body) == versionOf(w.body))))
            && (w.SetStatus? ==> (events == [] <==> actual.status == w.status))
            && (w.SetField? ==> (events == [] <==> value == Some(w.value)))
  {
  }

  /** One event for each axis that differs, the body before the title, and one for a status or a field. */
  lemma OneEventPerAxis(versionOf: string -> nat, observed: bool, w: Write, actual: Item, value: Option<FieldValue>)
    ensures var events := Divergences(versionOf, observed, w, actual, value);
            match w
            case UpdateBody(id, title, body) =>
              var bodyDiffers := observed && versionOf(actual.body) != versionOf(body);
              && |events| == (if bodyDiffers then 1 else 0) + (if actual.title != title then 1 else 0)
              && (bodyDiffers ==>
                    events[0] == BoardDiverged(id, BodyIs(versionOf(body)), BodyIs(versionOf(actual.body))))
              && (actual.title != title ==>
                    events[|events| - 1] == BoardDiverged(id, TitleIs(title), TitleIs(actual.title)))
            case SetStatus(id, status) =>
              actual.status != status ==> events == [BoardDiverged(id, StatusIs(status), StatusIs(actual.status))]
            case SetField(id, field, written) =>
              && (value.None? ==> events == [BoardDiverged(id, FieldIs(field, written), FieldCleared(field))])
              && (value.Some? && value.value != written ==>
                    events == [BoardDiverged(id, FieldIs(field, written), FieldIs(field, value.value))])
            case _ => events == []
  {
  }

  /** Over the in-memory board, a write that nobody interferes with never looks diverged. */
  lemma NoDriftNoEvent(versionOf: string -> nat, observed: bool, b: Board, w: Write)
    requires IsCachedWrite(w) && Answer(b, w).Ok?
    ensures var a := Written(b, w);
            && w.id in a.items
            && (w.SetField? ==> ReadField(a, w.id, w.field).Ok?)
            && Divergences(versionOf, observed, w, a.items[w.id],
                           if w.SetField? then ReadField(a, w.id, w.field).value else None) == []
  {
    WritesAreReadBack(b, w);
  }

  /** The board once the item was read back: only a field write reads again, and others may edit in between. */
  function LastBoard(readBack: Board, w: Write, fieldDrift: Drift): Board
  {
    if w.SetField? && fieldDrift.Some? && w.id in readBack.items then fieldDrift.value else readBack
  }

  /** What a cached write answers and caches, from the board its item and the one its field was read back from. */
  function Reconciled(c: Cache, versionOf: string -> nat, observed: bool, w: Write, readBack: Board, last: Board,
                      now: nat, clock: nat -> nat): (Result<Unit>, Cache)
    requires IsCachedWrite(w)
  {
    if w.id !in readBack.items then (Err(ItemNotFound(w.id)), c)
    else
      var actual := readBack.items[w.id];
      var seen := Refreshed(c, versionOf, actual, w.id, now);
      var value := if w.SetField? then ReadField(last, w.id, w.field) else Ok(None);
      if value.Err? then (Err(value.error), seen)
      else
        var found := Divergences(versionOf, observed, w, actual, value.value);
        (Ok(Unit.Unit), Recorded(seen, versionOf, actual, found, clock))
  }

  /** The field value that was read back, where one was written. */
  function ReadBack(last: Board, w: Write): Option<FieldValue>
    requires w.SetField? ==> ReadField(last, w.id, w.field).Ok?
  {
    if w.SetField? then ReadField(last, w.id, w.field).value else None
  }

  /**
  What that comes to: it succeeds exactly when the item, and a written field,
  could be read back, and then records exactly the divergences; an error records
  no event; a success leaves the item read back under its id, stamped by the
  refresh or, after a divergence, by the last record; and no other entry moves.
   */
  lemma ReconciledMeans(c: Cache, versionOf: string -> nat, observed: bool, w: Write, readBack: Board, last: Board,
                        now: nat, clock: nat -> nat)
    requires IsCachedWrite(w) && ValidBoard(readBack)
    ensures var (r, t) := Reconciled(c, versionOf, observed, w, readBack, last, now, clock);
            && (r.Err? ==> t.events == c.events)
            && c.events <= t.events
            && (r.Ok? <==> w.id in readBack.items && (w.SetField? ==> ReadField(last, w.id, w.field).Ok?))
            && (r.Ok? ==> t.events[|c.events|..] == Divergences(versionOf, observed, w, readBack.items[w.id],
                                                                ReadBack(last, w)))
            && (w.id in readBack.items ==>
                  var stamp := if t.events == c.events then now else clock(|t.events| - |c.events| - 1);
                  && t.items == c.items[w.id := CachedItem(readBack.items[w.id], stamp)]
                  && t.versions == c.versions[w.id := versionOf(readBack.items[w.id].body)]
                  && t.generation == c.generation + 1 + (|t.events| - |c.events|))
            && (w.id !in readBack.items ==> t == c)
  {
    if w.id in readBack.items {
      var actual := readBack.items[w.id];
      assert forall stamp :: c.items[w.id := CachedItem(actual, now)][w.id := CachedItem(actual, stamp)]
                             == c.items[w.id := CachedItem(actual, stamp)];
      assert c.versions[w.id := versionOf(actual.body)][w.id := versionOf(actual.body)]
             == c.versions[w.id := versionOf(actual.body)];
    }
  }

  // ------------------------------------------------------------------ what is cached

  /** The item was in some state of the board that the provider really held. */
  ghost predicate WasHeld(held: seq<Board>, id: string, item: Item)
  {
    exists k :: 0 <= k < |held| && id in held[k].items && held[k].items[id] == item
  }

  /** Every entry was read from the provider, and its recorded version is its body's. */
  ghost predicate IsFaithful(c: Cache, versionOf: string -> nat, held: seq<Board>)
  {
    && c.items.Keys == c.versions.Keys
    && forall id :: id in c.items ==>
         WasHeld(held, id, c.items[id].item) && c.versions[id] == versionOf(c.items[id].item.body)
  }

  lemma HistoryKeepsFaith(c: Cache, versionOf: string -> nat, held: seq<Board>, more: seq<Board>)
    requires IsFaithful(c, versionOf, held) && held <= more
    ensures IsFaithful(c, versionOf, more)
  {
    forall id | id in c.items ensures WasHeld(more, id, c.items[id].item) {
      assert WasHeld(held, id, c.items[id].item);
      var k :| 0 <= k < |held| && id in held[k].items && held[k].items[id] == c.items[id].item;
      assert more[k] == held[k];
    }
  }

  lemma RefreshIsFaithful(c: Cache, versionOf: string -> nat, held: seq<Board>, id: string, item: Item, now: nat)
    requires IsFaithful(c, versionOf, held) && WasHeld(held, id, item)
    ensures IsFaithful(Refreshed(c, versionOf, item, id, now), versionOf, held)
  {
    var t := Refreshed(c, versionOf, item, id, now);
    assert t.items.Keys == c.items.Keys + {id} && t.versions.Keys == c.versions.Keys + {id};
  }

  lemma RecordedIsFaithful(c: Cache, versionOf: string -> nat, held: seq<Board>, actual: Item, found: seq<Event>,
                           clock: nat -> nat)
    requires IsFaithful(c, versionOf, held) && WasHeld(held, actual.id, actual)
    ensures IsFaithful(Recorded(c, versionOf, actual, found, clock), versionOf, held)
  {
    if found != [] { RefreshIsFaithful(c, versionOf, held, actual.id, actual, clock(|found| - 1)); }
  }

  /** A later record overwrites the entry of an earlier one. */
  lemma RecordOneMore(c: Cache, versionOf: string -> nat, actual: Item, found: seq<Event>, i: nat, clock: nat -> nat)
    requires i < |found|
    ensures var t := Recorded(c, versionOf, actual, found[..i], clock);
            Recorded(c, versionOf, actual, found[..i + 1], clock)
            == Refreshed(t, versionOf, actual, actual.id, clock(i)).(events := t.events + [found[i]])
  {
    assert c.events + found[..i + 1] == c.events + found[..i] + [found[i]];
    if i > 0 {
      var entry := CachedItem(actual, clock(i));
      assert c.items[actual.id := CachedItem(actual, clock(i - 1))][actual.id := entry] == c.items[actual.id := entry];
    }
  }

  // -------------------------------------------------------------- the cache as an object

  class CachedBoard {
    const provider: Provider
    const versionOf: string -> nat
    var items: map<string, CachedItem>
    var versions: map<string, nat>
    var events: seq<Event>
    var generation: nat

    ghost function View(): Cache reads this { Cache(items, versions, events, generation) }

    /** Every cached item is a state the provider really held. */
    ghost predicate Valid()
      reads this, provider
    {
      provider.Valid() && IsFaithful(View(), versionOf, provider.held)
    }

    constructor (provider: Provider, versionOf: string -> nat)
      requires provider.Valid()
      ensures Valid() && this.provider == provider && this.versionOf == versionOf && View() == EMPTY
    {
      this.provider, this.versionOf := provider, versionOf;
      items, versions, events, generation := map[], map[], [], 0;
    }

    method Store(id: string, item: Item, now: nat)
      modifies this
      ensures View() == Refreshed(old(View()), versionOf, item, id, now)
    {
      generation := generation + 1;
      items := items[id := CachedItem(item, now)];
      versions := versions[id := versionOf(item.body)];
    }

    /** Other parties edit the board while the cache is not looking. */
    method Interfere(drift: Drift)
      requires Valid() && (drift.Some? ==> ValidBoard(drift.value))
      modifies provider
      ensures Valid() && provider.board == (if drift.Some? then drift.value else old(provider.board))
      ensures old(provider.held) <= provider.held
    {
      if drift.Some? {
        provider.Drift(drift.value);
        HistoryKeepsFaith(View(), versionOf, old(provider.held), provider.held);
      }
    }

    /** Reads the item from the provider and caches what it saw. */
    method Refresh(id: string, now: nat) returns (r: Result<Item>)
      requires Valid()
      modifies this
      ensures Valid() && r == ReadItem(provider.board, id)
      ensures View() == if r.Ok? then Refreshed(old(View()), versionOf, r.value, id, now) else old(View())
    {
      if id !in provider.board.items { return Err(ItemNotFound(id)); }
      var actual := provider.board.items[id];
      assert WasHeld(provider.held, id, actual) by {
        var last := |provider.held| - 1;
        assert provider.held[last] == provider.board;
      }
      RefreshIsFaithful(View(), versionOf, provider.held, id, actual, now);
      Store(id, actual, now);
      r := Ok(actual);
    }

    /** A cached read goes to the provider every time. */
    method CachedRead(id: string, now: nat) returns (r: Result<CachedItem>)
      requires Valid()
      modifies this
      ensures Valid()
      ensures r == if id in provider.board.items
                   then Ok(CachedItem(provider.board.items[id], now)) else Err(ItemNotFound(id))
      ensures r.Err? ==> View() == old(View())
      ensures r.Ok? ==> id in items && items[id] == r.value && events == old(events)
    {
      var read := Refresh(id, now);
      match read {
        case Ok(item) => r := Ok(CachedItem(item, now));
        case Err(error) => r := Err(error);
      }
    }

    /** Records one divergence and takes the board's item over again, with a stamp of its own: the board wins. */
    method RecordDivergence(event: Event, actual: Item, now: nat)
      modifies this
      ensures View() == Refreshed(old(View()), versionOf, actual, actual.id, now).(events := old(events) + [event])
    {
      events := events + [event];
      Store(actual.id, actual, now);
    }

    /** Records the divergences of one write in order; `clock` gives the reading each record takes. */
    method RecordDivergences(found: seq<Event>, actual: Item, clock: nat -> nat)
      modifies this
      ensures View() == Recorded(old(View()), versionOf, actual, found, clock)
    {
      for i := 0 to |found|
        invariant View() == Recorded(old(View()), versionOf, actual, found[..i], clock)
      {
        RecordOneMore(old(View()), versionOf, actual, found, i, clock);
        RecordDivergence(found[i], actual, clock(i));
      }
      assert found[..|found|] == found;
    }

    /** New items and edges go straight to the provider, which mints the ids; the cache is not touched. */
    method CreateItem(itemType: string, title: string, body: string, idOf: nat -> string) returns (id: string)
      requires Valid()
      modifies provider
      ensures Valid() && View() == old(View()) && id == idOf(old(provider.board).nextId + 1)
      ensures ReadItem(provider.board, id) == Ok(Item(id, itemType, title, body, ""))
    {
      id := provider.CreateItem(itemType, title, body, idOf);
      HistoryKeepsFaith(View(), versionOf, old(provider.held), provider.held);
    }

    method WriteEdge(w: Write) returns (r: Result<Unit>)
      requires Valid() && (w.AddEdge? || w.RemoveEdge?)
      modifies provider
      ensures Valid() && View() == old(View())
      ensures r == Answer(old(provider.board), w) && provider.board == Written(old(provider.board), w)
    {
      r := provider.Apply(w);
      HistoryKeepsFaith(View(), versionOf, old(provider.held), provider.held);
    }

    /** The provider's field value, read where only a field write reads it. */
    method ReadBackField(w: Write) returns (r: Result<Option<FieldValue>>)
      ensures r == if w.SetField? then ReadField(provider.board, w.id, w.field) else Ok(None)
    {
      if !w.SetField? { return Ok(None); }
      if w.id !in provider.board.items { return Err(ItemNotFound(w.id)); }
      if w.field !in provider.board.fields { return Err(FieldNotFound(w.field)); }
      r := Ok(if (w.id, w.field) in provider.board.values then Some(provider.board.values[(w.id, w.field)]) else None);
    }

    /**
    The read-back and the reconciliation. The cache takes over what it read; a
    failed read of the item leaves it alone, a failed read of the field leaves
    the entry refreshed and records nothing, and otherwise exactly the
    divergences are recorded. The refresh reads the clock, and so does each
    record after it.
     */
    method Reconcile(w: Write, observed: bool, fieldDrift: Drift, now: nat, clock: nat -> nat)
      returns (r: Result<Unit>)
      requires Valid() && IsCachedWrite(w) && (fieldDrift.Some? ==> ValidBoard(fieldDrift.value))
      modifies this, provider
      ensures Valid() && provider.board == LastBoard(old(provider.board), w, fieldDrift)
      ensures (r, View()) == Reconciled(old(View()), versionOf, observed, w, old(provider.board), provider.board, now,
                                        clock)
    {
      var read := Refresh(w.id, now);
      if read.Err? { return Err(read.error); }
      var actual := read.value;
      if w.SetField? { Interfere(fieldDrift); }
      var value := ReadBackField(w);
      if value.Err? { return Err(value.error); }
      var found := Divergences(versionOf, observed, w, actual, value.value);
      assert items[w.id].item == actual && actual.id == w.id;
      RecordedIsFaithful(View(), versionOf, provider.held, actual, found, clock);
      RecordDivergences(found, actual, clock);
      r := Ok(Unit.Unit);
    }

    /**
    A body, status or field write: the provider first, then the read-back and
    the reconciliation. The provider ends exactly where its own write and the
    other parties' edits leave it, and a refused write leaves the cache alone.
     */
    method WriteThrough(w: Write, drift: Drift, fieldDrift: Drift, now: nat, clock: nat -> nat)
      returns (r: Result<Unit>)
      requires Valid() && IsCachedWrite(w)
      requires (drift.Some? ==> ValidBoard(drift.value)) && (fieldDrift.Some? ==> ValidBoard(fieldDrift.value))
      modifies this, provider
      ensures Valid()
      ensures Answer(old(provider.board), w).Err? ==>
                r == Answer(old(provider.board), w) && View() == old(View()) && provider.board == old(provider.board)
      ensures Answer(old(provider.board), w).Ok? ==>
                var readBack := if drift.Some? then drift.value else Written(old(provider.board), w);
                && provider.board == LastBoard(readBack, w, fieldDrift)
                && (r, View()) == Reconciled(old(View()), versionOf, w.id in old(versions), w, readBack, provider.board,
                                             now, clock)
    {
      var observed := w.id in versions;
      var answer := provider.Apply(w);
      if answer.Err? { return answer; }
      HistoryKeepsFaith(View(), versionOf, old(provider.held), provider.held);
      Interfere(drift);
      r := Reconcile(w, observed, fieldDrift, now, clock);
    }

    /** With nobody interfering the cache answers exactly as the bare provider and emits no event. */
    method UndisturbedWrite(w: Write, now: nat) returns (r: Result<Unit>)
      requires Valid() && IsCachedWrite(w)
      modifies this, provider
      ensures Valid() && r == Answer(old(provider.board), w) && provider.board == Written(old(provider.board), w)
      ensures events == old(events)
      ensures r.Ok? ==> w.id in items && w.id in provider.board.items
                        && items[w.id] == CachedItem(provider.board.items[w.id], now)
      ensures r.Err? ==> View() == old(View())
    {
      ghost var before := provider.board;
      ghost var observed := w.id in versions;
      r := WriteThrough(w, None, None, now, _ => now);
      if Answer(before, w).Ok? { NoDriftNoEvent(versionOf, observed, before, w); }
    }

    method DrainEvents() returns (drained: seq<Event>)
      requires Valid()
      modifies this`events
      ensures Valid() && drained == old(events) && events == [] && items == old(items)
    {
      drained := events;
      events := [];
    }
  }
}
