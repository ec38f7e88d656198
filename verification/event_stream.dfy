/**
 Event recovery between the server log and a client cursor (`aomori_get_events` in
 src/rpc.rs; `renderEvent`, `parseEventMessage`, `recoverEvents`, `refreshEvents` and the
 socket handlers in web/src/main.ts), as interleaved steps.
 */
module EventStream {
  import opened Common
  import opened Model
  import opened History

  const MAX_VISIBLE: nat := 200
  const PAGE: nat := 500

  // ---------- the server's pages ----------

  function After(events: seq<Event>, since: nat): seq<Event> {
    if events == [] then []
    else (if events[0].id > since then [events[0]] else []) + After(events[1..], since)
  }

  function Take<T>(s: seq<T>, n: nat): seq<T> {
    if |s| <= n then s else s[..n]
  }

  datatype Page = Page(events: seq<Event>, next: nat, latest: nat)

  /** `aomori_get_events`: at most 500 events above the cursor. */
  function GetEvents(w: World, since: nat, limit: nat): Page {
    var events := Take(After(w.events, since), if limit < PAGE then limit else PAGE);
    Page(events, if events == [] then since else events[|events| - 1].id, LastId(w.events))
  }

  function Smaller(a: nat, b: nat): nat {
    if a < b then a else b
  }

  lemma {:induction false} AfterExact(events: seq<Event>, since: nat, first: nat)
    requires forall i :: 0 <= i < |events| ==> events[i].id == first + i
    ensures After(events, since) == if since < first then events else events[Smaller(since + 1 - first, |events|)..]
  {
    if events == [] {
    } else {
      hide After;
      var rest := events[1..];
      RestExact(events, first);
      AfterExact(rest, since, first + 1);
      AfterFirst(events, since);
      if since < first {
        HeadFirst(events);
      } else {
        NextStretch(events, since - first);
      }
    }
  }

  lemma HeadFirst<T>(s: seq<T>)
    requires s != []
    ensures s == [s[0]] + s[1..]
  {
  }

  lemma NextStretch<T>(s: seq<T>, n: nat)
    requires s != []
    ensures s[Smaller(n + 1, |s|)..] == s[1..][Smaller(n, |s| - 1)..]
    ensures n == 0 ==> s[1..][Smaller(n, |s| - 1)..] == s[1..]
  {
  }

  lemma RestExact(events: seq<Event>, first: nat)
    requires events != [] && forall i :: 0 <= i < |events| ==> events[i].id == first + i
    ensures events[0].id == first && forall i :: 0 <= i < |events[1..]| ==> events[1..][i].id == first + 1 + i
  {
  }

  lemma AfterFirst(events: seq<Event>, since: nat)
    requires events != []
    ensures After(events, since) ==
      if events[0].id > since then [events[0]] + After(events[1..], since) else After(events[1..], since)
  {
  }

  lemma AfterLog(w: World, since: nat)
    requires LogExact(w)
    ensures After(w.events, since) == if since < |w.events| then w.events[since..] else []
    ensures LastId(w.events) == |w.events|
  {
    AfterExact(w.events, since, 1);
    hide After;
    if since >= |w.events| {
      assert w.events[|w.events|..] == [];
    }
  }

  /** On an exactly numbered log, a page is the next stretch of ids after the cursor. */
  lemma PageIsNextStretch(w: World, since: nat, limit: nat)
    requires LogExact(w)
    ensures var page := GetEvents(w, since, limit);
      var n := Smaller(|w.events|, since + Smaller(limit, PAGE));
      && page.latest == |w.events|
      && (since >= |w.events| ==> page.events == [] && page.next == since)
      && (since < |w.events| && limit > 0 ==> page.events == w.events[since..n] && page.next == n)
  {
    AfterLog(w, since);
    var most := Smaller(limit, PAGE);
    var page := GetEvents(w, since, limit);
    assert page.events == Take(After(w.events, since), most);
    if since < |w.events| {
      TakeStretch(w.events, since, most);
      var n := Smaller(|w.events|, since + most);
      assert limit > 0 ==> w.events[since..n][n - since - 1] == w.events[n - 1];
    }
  }

  lemma TakeStretch<T>(s: seq<T>, from: nat, n: nat)
    requires from <= |s|
    ensures Take(s[from..], n) == s[from..Smaller(|s|, from + n)]
  {
  }

  /** The ids `low + 1` to `high`. */
  function Ids(low: nat, high: nat): (ids: seq<nat>)
    ensures |ids| == (if low < high then high - low else 0)
    ensures forall i :: 0 <= i < |ids| ==> ids[i] == low + 1 + i
    decreases high
  {
    if low >= high then [] else Ids(low, high - 1) + [high]
  }

  /** What the handlers see of a page answered from a log of `n` events. */
  function PageIds(n: nat, since: nat): seq<nat> {
    Ids(since, Smaller(n, since + PAGE))
  }

  /** The client's page requests are answered with exactly those ids. */
  lemma PageHasIds(w: World, since: nat)
    requires LogExact(w)
    ensures var page := GetEvents(w, since, PAGE);
      var ids := PageIds(|w.events|, since);
      && page.latest == |w.events| && |page.events| == |ids|
      && (forall i :: 0 <= i < |ids| ==> page.events[i].id == ids[i])
      && page.next == (if ids == [] then since else ids[|ids| - 1])
  {
    PageIsNextStretch(w, since, PAGE);
    var n := Smaller(|w.events|, since + PAGE);
    if since < |w.events| {
      assert forall i :: 0 <= i < n - since ==> w.events[since..n][i] == w.events[since + i];
    }
  }

  // ---------- the client ----------

  const MAX_SAFE: nat := 9_007_199_254_740_991

  /** `parseEventMessage`: a live event is refused unless its numbers are safe and its data is an object. */
  predicate Parses(e: Event) {
    0 < e.id <= MAX_SAFE && e.head <= MAX_SAFE && e.data.Obj?
  }

  /** The ids of a log that are refused when they arrive live; a page shows them like any other. */
  function RefusedIds(events: seq<Event>): set<nat> {
    set i | 0 <= i < |events| && !Parses(events[i]) :: events[i].id
  }

  /** `refreshEvents` between two pages. */
  datatype Recovery = Recovery(since: nat, reset: bool)

  /**
   The client state. `seen` is in insertion order and follows the visible rows; `shown` is
   everything rendered since `base`, the start cursor or 0 after a stale cursor was reset;
   `waiting` says that the open socket waits for the recovery in flight to start its own.
   */
  datatype Client = Client(
    cursor: nat, seen: seq<nat>, recovering: Option<Recovery>, pending: seq<nat>, overflow: bool,
    waiting: bool, shown: seq<nat>, base: nat)

  function Render(c: Client, id: nat): Client {
    if id <= c.cursor || id in c.seen then c
    else
      var seen := c.seen + [id];
      c.(seen := if |seen| > MAX_VISIBLE then seen[1..] else seen, shown := c.shown + [id], cursor := id)
  }

  function RenderAll(c: Client, ids: seq<nat>): Client
    decreases |ids|
  {
    if ids == [] then c else RenderAll(Render(c, ids[0]), ids[1..])
  }

  /** `recoverEvents`: joins a recovery that is already in flight. */
  function Recover(c: Client): Client {
    if c.recovering.Some? then c else c.(recovering := Some(Recovery(c.cursor, false)))
  }

  /** `recoverOnOpen`: a new socket lets the recovery in flight end, then starts its own. */
  function Reconnect(c: Client): Client {
    if c.recovering.Some? then c.(waiting := true) else Recover(c)
  }

  /** A live event: buffered during a recovery, up to the buffer's size. */
  function Receive(c: Client, id: nat): Client {
    if c.recovering.None? then Render(c, id)
    else if |c.pending| < MAX_VISIBLE then c.(pending := c.pending + [id])
    else c.(overflow := true)
  }

  /** The end of a recovery; whether it closes the socket. */
  function Finish(c: Client, recovered: bool): (Client, bool) {
    if c.overflow || (!recovered && c.pending != []) then
      (c.(recovering := None, overflow := false, pending := []), true)
    else (RenderAll(c.(recovering := None, pending := []), c.pending), false)
  }

  /** The same, with the socket that waited for it. */
  function Settle(c: Client, recovered: bool): (Client, bool) {
    var (done, closes) := Finish(c, recovered);
    (if done.waiting then Recover(done.(waiting := false)) else done, closes)
  }

  /** One answered page. */
  function Turn(c: Client, ids: seq<nat>, next: nat, latest: nat): (Client, bool)
    requires c.recovering.Some?
  {
    var r := c.recovering.value;
    if !r.reset && r.since > latest then
      (c.(cursor := 0, seen := [], shown := [], base := 0, recovering := Some(Recovery(0, true))), false)
    else
      var rendered := RenderAll(c, ids);
      if ids == [] || |ids| < PAGE || next <= r.since then Settle(rendered, true)
      else (rendered.(recovering := Some(r.(since := next))), false)
  }

  /** The same state as one object whose handlers update it. */
  class EventClient {
    var lastEvent: nat
    var seenEvents: seq<nat>
    var recoveringEvents: Option<Recovery>
    var pendingEvents: seq<nat>
    var pendingEventsOverflow: bool
    var openWaits: bool
    ghost var shown: seq<nat>
    ghost var base: nat

    ghost function View(): Client
      reads this
    {
      Client(
        lastEvent, seenEvents, recoveringEvents, pendingEvents, pendingEventsOverflow, openWaits, shown, base)
    }

    constructor (cursor: nat)
      ensures View() == Client(cursor, [], None, [], false, false, [], cursor)
    {
      lastEvent, seenEvents, recoveringEvents, openWaits := cursor, [], None, false;
      pendingEvents, pendingEventsOverflow, shown, base := [], false, [], cursor;
    }

    method RenderEvent(id: nat)
      modifies this
      ensures View() == Render(old(View()), id)
    {
      if id <= lastEvent || id in seenEvents {
        return;
      }
      seenEvents := seenEvents + [id];
      shown := shown + [id];
      if |seenEvents| > MAX_VISIBLE {
        seenEvents := seenEvents[1..];
      }
      lastEvent := id;
    }

    method RenderEvents(ids: seq<nat>)
      modifies this
      ensures View() == RenderAll(old(View()), ids)
    {
      for n := 0 to |ids|
        invariant RenderAll(View(), ids[n..]) == RenderAll(old(View()), ids)
      {
        assert ids[n..][1..] == ids[n + 1..];
        RenderEvent(ids[n]);
      }
    }

    method RecoverEvents()
      modifies this
      ensures View() == Recover(old(View()))
    {
      if recoveringEvents.None? {
        recoveringEvents := Some(Recovery(lastEvent, false));
      }
    }

    method RecoverOnOpen()
      modifies this
      ensures View() == Reconnect(old(View()))
    {
      if recoveringEvents.Some? {
        openWaits := true;
      } else {
        RecoverEvents();
      }
    }

    method OnClose()
      modifies this
      ensures View() == old(View()).(waiting := false)
    {
      openWaits := false;
    }

    /** A message that does not parse is logged and forgotten. */
    method OnMessage(e: Event)
      modifies this
      ensures View() == if Parses(e) then Receive(old(View()), e.id) else old(View())
    {
      if !Parses(e) {
        return;
      }
      if recoveringEvents.Some? {
        if |pendingEvents| < MAX_VISIBLE {
          pendingEvents := pendingEvents + [e.id];
        } else {
          pendingEventsOverflow := true;
        }
      } else {
        RenderEvent(e.id);
      }
    }

    method FinishRecovery(recovered: bool) returns (closes: bool)
      modifies this
      ensures (View(), closes) == Finish(old(View()), recovered)
    {
      recoveringEvents := None;
      if pendingEventsOverflow || (!recovered && |pendingEvents| > 0) {
        pendingEventsOverflow := false;
        pendingEvents := [];
        return true;
      }
      var pending := pendingEvents;
      pendingEvents := [];
      RenderEvents(pending);
      return false;
    }

    method SettleRecovery(recovered: bool) returns (closes: bool)
      modifies this
      ensures (View(), closes) == Settle(old(View()), recovered)
    {
      closes := FinishRecovery(recovered);
      if openWaits {
        openWaits := false;
        RecoverEvents();
      }
    }

    method OnPage(ids: seq<nat>, next: nat, latest: nat) returns (closes: bool)
      requires recoveringEvents.Some?
      modifies this
      ensures (View(), closes) == Turn(old(View()), ids, next, latest)
    {
      hide RenderAll;
      var r := recoveringEvents.value;
      if !r.reset && r.since > latest {
        lastEvent, seenEvents := 0, [];
        shown, base := [], 0;
        recoveringEvents := Some(Recovery(0, true));
        return false;
      }
      RenderKeeps(View(), ids);
      RenderEvents(ids);
      if |ids| == 0 || |ids| < PAGE || next <= r.since {
        closes := SettleRecovery(true);
      } else {
        recoveringEvents := Some(r.(since := next));
        return false;
      }
    }
  }

  /** Rendering touches neither the recovery nor the buffer. */
  lemma {:induction false} RenderKeeps(c: Client, ids: seq<nat>)
    ensures var d := RenderAll(c, ids);
      && d.recovering == c.recovering && d.pending == c.pending && d.overflow == c.overflow
      && d.waiting == c.waiting && d.base == c.base
    decreases |ids|
  {
    if ids == [] {
    } else {
      RenderKeeps(Render(c, ids[0]), ids[1..]);
    }
  }

  // ---------- the interleaved system ----------

  /** The server's end of a socket: the last event handed to it. */
  datatype Socket = Closed | Connecting(position: nat) | Open(position: nat)

  /**
   `log` is the number of events, `refused` the ids of those that do not parse live, and
   `page` the log length at which the outstanding request was answered.
   */
  datatype System = System(client: Client, socket: Socket, log: nat, refused: set<nat>, page: Option<nat>)

  datatype Step =
    | Append(parses: bool)  // the server commits an event
    | Subscribe             // the server accepts a new socket, from the end of its log
    | Opened                // the client learns of it and recovers, or waits to
    | Deliver               // the next live event arrives, and is refused if it does not parse
    | Lag(missed: nat)      // the server skipped events and says so
    | Answer                // the server answers the outstanding page request
    | Arrive                // the answer arrives
    | Fail                  // the request fails
    | Lose                  // the socket is lost

  predicate Enabled(s: System, step: Step) {
    match step
    case Append(parses) => true
    case Subscribe => s.socket.Closed?
    case Opened => s.socket.Connecting?
    case Deliver => s.socket.Open? && s.socket.position < s.log
    case Lag(missed) => s.socket.Open? && s.socket.position + missed <= s.log
    case Answer => s.client.recovering.Some? && s.page.None?
    case Arrive => s.client.recovering.Some? && s.page.Some?
    case Fail => s.client.recovering.Some?
    case Lose => !s.socket.Closed?
  }

  function Next(s: System, step: Step): System
    requires Enabled(s, step)
  {
    match step
    case Append(parses) => s.(log := s.log + 1, refused := s.refused + if parses then {} else {s.log + 1})
    case Subscribe => s.(socket := Connecting(s.log))
    case Opened => s.(socket := Open(s.socket.position), client := Reconnect(s.client))
    case Deliver =>
      var id := s.socket.position + 1;
      s.(socket := Open(id), client := if id in s.refused then s.client else Receive(s.client, id))
    case Lag(missed) => s.(socket := Open(s.socket.position + missed), client := Recover(s.client))
    case Answer => s.(page := Some(s.log))
    case Arrive =>
      var since := s.client.recovering.value.since;
      var ids := PageIds(s.page.value, since);
      Ended(s, Turn(s.client, ids, if ids == [] then since else ids[|ids| - 1], s.page.value))
    case Fail => Ended(s, Settle(s.client, false))
    case Lose => s.(socket := Closed, client := s.client.(waiting := false))
  }

  function Ended(s: System, done: (Client, bool)): System {
    s.(client := done.0, socket := if done.1 then Closed else s.socket, page := None)
  }

  // ---------- what every run keeps ----------

  /** What is on screen: every id from the base to the cursor, once, in order; the newest 200 rows are remembered. */
  ghost predicate Faithful(c: Client) {
    && c.base <= c.cursor
    && c.shown == Ids(c.base, c.cursor)
    && |c.seen| == Smaller(|c.shown|, MAX_VISIBLE)
    && c.seen == c.shown[|c.shown| - |c.seen|..]
  }

  /** While no recovery runs, an open socket is never ahead of the cursor, nor the cursor of the log. */
  predicate Idle(s: System) {
    && s.client.pending == [] && !s.client.overflow && !s.client.waiting && s.page.None?
    && (s.socket.Open? ==> s.socket.position <= s.client.cursor <= s.log)
  }

  /** The page in transit is the recovery's last: neither full nor a reason to start over. */
  predicate LastPage(s: System)
    requires s.client.recovering.Some?
  {
    var r := s.client.recovering.value;
    s.page.Some? && (r.reset || r.since <= s.page.value) && |PageIds(s.page.value, r.since)| < PAGE
  }

  /** The recovery in flight will show every event up to `id`. */
  predicate Covers(s: System, id: nat)
    requires s.client.recovering.Some?
  {
    LastPage(s) ==> id <= s.page.value
  }

  /** An event after `id` can be shown when the recovery ends: `id` is buffered last, or will be read. */
  predicate Linked(s: System, id: nat)
    requires s.client.recovering.Some?
  {
    (s.client.pending != [] && id == s.client.pending[|s.client.pending| - 1]) || Covers(s, id)
  }

  /** An id follows the one before it, or is at most one above `top`. */
  predicate Joins(ids: seq<nat>, i: nat, top: nat)
    requires i < |ids|
  {
    (i > 0 && ids[i] == ids[i - 1] + 1) || ids[i] <= top + 1
  }

  /** Every buffered id follows the one before it, or what is missing in between will be read. */
  predicate Chained(s: System)
    requires s.client.recovering.Some?
  {
    var ids := s.client.pending;
    LastPage(s) ==> forall i :: 0 <= i < |ids| ==> Joins(ids, i, s.page.value)
  }

  /** The buffer holds live events in order, up to where the socket is. */
  predicate Buffered(s: System) {
    var ids := s.client.pending;
    && |ids| <= MAX_VISIBLE
    && (forall i :: 0 <= i < |ids| ==> 0 < ids[i] <= if s.socket.Closed? then s.log else s.socket.position)
    && (forall i, j :: 0 <= i < j < |ids| ==> ids[i] < ids[j])
  }

  predicate Busy(s: System)
    requires s.client.recovering.Some?
  {
    var c := s.client;
    && c.recovering.value.since == c.cursor
    && (c.recovering.value.reset ==> c.cursor <= s.log)
    && (s.page.Some? ==> s.page.value <= s.log && (c.recovering.value.reset ==> c.cursor <= s.page.value))
    && Buffered(s)
    && (c.waiting ==> s.socket.Open?)
    && (!c.overflow ==> Chained(s) && (s.socket.Open? && !c.waiting ==> Linked(s, s.socket.position)))
  }

  ghost predicate Sound(s: System) {
    && Faithful(s.client)
    && (!s.socket.Closed? ==> s.socket.position <= s.log)
    && (if s.client.recovering.None? then Idle(s) else Busy(s))
  }

  /**
   What keeps a step from losing events. A failed recovery has to close the socket, be
   followed by the one that waits for it, or have had nothing to read; events skipped during
   a recovery have to be read by it, or by one that waits, and so has an event that is
   refused, unless it was shown before; any other event that arrives during a recovery has
   to follow the last one, or what is missing has to be read.
   */
  predicate Harmless(s: System, step: Step)
    requires Enabled(s, step)
  {
    var c := s.client;
    match step
    case Fail =>
      || c.overflow || c.pending != [] || c.waiting || !s.socket.Open?
      || s.socket.position <= c.cursor <= s.log
    case Lag(missed) =>
      c.recovering.None? || c.waiting || c.overflow || Linked(s, s.socket.position + missed)
    case Deliver =>
      var id := s.socket.position + 1;
      if id in s.refused then
        if c.recovering.None? then id <= c.cursor else c.waiting || c.overflow || Covers(s, id)
      else c.recovering.None? || c.overflow || |c.pending| == MAX_VISIBLE || Linked(s, s.socket.position)
    case _ => true
  }

  // ---------- rendering ----------

  lemma RenderNext(c: Client, id: nat)
    requires Faithful(c) && id <= c.cursor + 1
    ensures var d := Render(c, id); Faithful(d) && d.cursor == (if id > c.cursor then id else c.cursor)
  {
    if id == c.cursor + 1 {
      var seen := c.seen + [id];
      assert id !in c.seen;
      assert c.shown + [id] == Ids(c.base, id);
      assert (c.shown + [id])[|c.shown| - |c.seen|..] == seen;
    }
  }

  /** Rendering ids of which each follows the one before it or is at most one above the cursor. */
  lemma {:induction false} RenderChain(c: Client, ids: seq<nat>)
    requires Faithful(c)
    requires forall i :: 0 <= i < |ids| ==> Joins(ids, i, c.cursor)
    ensures var d := RenderAll(c, ids);
      && Faithful(d) && c.cursor <= d.cursor && (d.cursor == c.cursor || d.cursor in ids)
      && forall i :: 0 <= i < |ids| ==> ids[i] <= d.cursor
    decreases |ids|
  {
    hide Faithful, Render;
    if ids == [] {
    } else {
      assert Joins(ids, 0, c.cursor);
      RenderNext(c, ids[0]);
      var d, rest := Render(c, ids[0]), ids[1..];
      forall i | 0 <= i < |rest|
        ensures Joins(rest, i, d.cursor)
      {
        assert Joins(ids, i + 1, c.cursor);
      }
      RenderChain(d, rest);
      assert forall i :: 1 <= i < |ids| ==> ids[i] == rest[i - 1];
    }
  }

  /** A page that is read at the cursor extends the screen to its end. */
  lemma RenderPage(c: Client, m: nat)
    requires Faithful(c)
    ensures var d := RenderAll(c, PageIds(m, c.cursor));
      && Faithful(d)
      && d.cursor == if c.cursor < m then Smaller(m, c.cursor + PAGE) else c.cursor
  {
    hide Faithful, RenderAll;
    var ids := PageIds(m, c.cursor);
    RenderChain(c, ids);
    if c.cursor < m {
      assert ids[|ids| - 1] == Smaller(m, c.cursor + PAGE);
    }
  }

  /** What is on screen does not depend on the recovery or the buffer. */
  lemma SameScreen(c: Client, d: Client)
    requires c.cursor == d.cursor && c.seen == d.seen && c.shown == d.shown && c.base == d.base
    ensures Faithful(c) <==> Faithful(d)
  {
  }

  // ---------- every step ----------

  lemma DeliverIsSoundIff(s: System)
    requires Sound(s) && Enabled(s, Deliver)
    ensures Sound(Next(s, Deliver)) <==> Harmless(s, Deliver)
  {
    hide Faithful, PageIds;
    var c, id, t := s.client, s.socket.position + 1, Next(s, Deliver);
    if id in s.refused {
      SameScreen(c, t.client);
    } else if c.recovering.None? {
      RenderNext(c, id);
    } else {
      SameScreen(c, t.client);
      if t.client.pending != c.pending {
        if LastPage(s) {
          JoinsLast(c.pending, id, s.page.value);
        }
      }
    }
  }

  lemma JoinsLast(ids: seq<nat>, id: nat, top: nat)
    ensures forall i :: 0 <= i < |ids| ==> (Joins(ids + [id], i, top) <==> Joins(ids, i, top))
    ensures Joins(ids + [id], |ids|, top) <==> (ids != [] && id == ids[|ids| - 1] + 1) || id <= top + 1
  {
  }

  lemma LagIsSoundIff(s: System, missed: nat)
    requires Sound(s) && Enabled(s, Lag(missed))
    ensures Sound(Next(s, Lag(missed))) <==> Harmless(s, Lag(missed))
  {
    hide Faithful, PageIds;
    SameScreen(s.client, Next(s, Lag(missed)).client);
  }

  lemma FailIsSoundIff(s: System)
    requires Sound(s) && Enabled(s, Fail)
    ensures Sound(Next(s, Fail)) <==> Harmless(s, Fail)
  {
    hide Faithful, PageIds;
    var done := s.client.(recovering := None, pending := []);
    assert RenderAll(done, []) == done;
    SameScreen(s.client, Next(s, Fail).client);
  }

  /** A stale cursor is reset to the start of the log. */
  lemma ResetIsSound(s: System)
    requires Sound(s) && Enabled(s, Arrive)
    requires !s.client.recovering.value.reset && s.client.recovering.value.since > s.page.value
    ensures Sound(Next(s, Arrive))
  {
    assert Ids(0, 0) == [];
    hide RenderAll, Settle, Ids, PageIds;
    assert Faithful(Next(s, Arrive).client);
  }

  /** A full page moves the recovery on. */
  lemma FullPageIsSound(s: System)
    requires Sound(s) && Enabled(s, Arrive)
    requires var r := s.client.recovering.value;
      (r.reset || r.since <= s.page.value) && |PageIds(s.page.value, r.since)| == PAGE
    ensures Sound(Next(s, Arrive))
  {
    hide RenderAll, Faithful;
    var c, m := s.client, s.page.value;
    var ids := PageIds(m, c.cursor);
    RenderPage(c, m);
    RenderKeeps(c, ids);
    SameScreen(RenderAll(c, ids), Next(s, Arrive).client);
  }

  /** What is rendered when the last page arrives: the rest of its log, then the buffer unless it overflowed. */
  function Flushed(s: System): Client
    requires s.client.recovering.Some? && s.page.Some?
  {
    var rendered := RenderAll(s.client, PageIds(s.page.value, s.client.recovering.value.since));
    if s.client.overflow then rendered.(recovering := None, overflow := false, pending := [])
    else RenderAll(rendered.(recovering := None, pending := []), s.client.pending)
  }

  lemma LastPageFlushes(s: System)
    requires s.client.recovering.Some? && LastPage(s)
    ensures var t, done := Next(s, Arrive), Flushed(s);
      && t.log == s.log && t.page.None? && t.socket == (if s.client.overflow then Closed else s.socket)
      && t.client == if s.client.waiting then Recover(done.(waiting := false)) else done
    ensures Flushed(s).recovering.None? && Flushed(s).pending == [] && !Flushed(s).overflow
    ensures Flushed(s).waiting == s.client.waiting
  {
    hide RenderAll, PageIds;
    var c := s.client;
    var ids := PageIds(s.page.value, c.recovering.value.since);
    RenderKeeps(c, ids);
    RenderKeeps(RenderAll(c, ids).(recovering := None, pending := []), c.pending);
  }

  /** The last page brings the cursor to the log it was answered from, past every gap in the buffer. */
  lemma LastPageShows(s: System)
    requires Sound(s) && s.client.recovering.Some? && LastPage(s)
    ensures var d := Flushed(s);
      && Faithful(d) && s.page.value <= d.cursor <= s.log
      && (d.cursor == s.page.value || d.cursor in s.client.pending)
      && (!s.client.overflow ==> forall i :: 0 <= i < |s.client.pending| ==> s.client.pending[i] <= d.cursor)
  {
    var c, m := s.client, s.page.value;
    var rendered := RenderAll(c, PageIds(m, c.cursor));
    RenderPage(c, m);
    hide RenderAll, Faithful;
    var idle := rendered.(recovering := None, pending := []);
    SameScreen(rendered, idle);
    if c.overflow {
      SameScreen(rendered, Flushed(s));
    } else {
      assert idle.cursor == m;
      RenderChain(idle, c.pending);
    }
  }

  lemma LastPageIsSound(s: System)
    requires Sound(s) && s.client.recovering.Some? && LastPage(s)
    ensures Sound(Next(s, Arrive))
  {
    hide Faithful, Next, Flushed, PageIds;
    LastPageFlushes(s);
    LastPageShows(s);
    SameScreen(Flushed(s), Next(s, Arrive).client);
  }

  lemma ArriveIsSound(s: System)
    requires Sound(s) && Enabled(s, Arrive)
    ensures Sound(Next(s, Arrive))
  {
    hide RenderAll, Faithful, Next, Settle;
    var r := s.client.recovering.value;
    if !r.reset && r.since > s.page.value {
      ResetIsSound(s);
    } else if |PageIds(s.page.value, r.since)| < PAGE {
      LastPageIsSound(s);
    } else {
      FullPageIsSound(s);
    }
  }

  lemma OtherStepIsSound(s: System, step: Step)
    requires Sound(s) && Enabled(s, step)
    requires step.Append? || step.Subscribe? || step.Opened? || step.Answer? || step.Lose?
    ensures Sound(Next(s, step))
  {
    hide Faithful, PageIds;
    SameScreen(s.client, Next(s, step).client);
  }

  /** An interleaved step keeps screen, buffer and socket in line exactly when it is harmless. */
  lemma StepIsSound(s: System, step: Step)
    requires Sound(s) && Enabled(s, step)
    ensures Sound(Next(s, step)) <==> Harmless(s, step)
  {
    hide Sound, Next;
    match step
    case Deliver => DeliverIsSoundIff(s);
    case Lag(missed) => LagIsSoundIff(s, missed);
    case Fail => FailIsSoundIff(s);
    case Arrive => ArriveIsSound(s);
    case Append(parses) => OtherStepIsSound(s, step);
    case Subscribe => OtherStepIsSound(s, step);
    case Opened => OtherStepIsSound(s, step);
    case Answer => OtherStepIsSound(s, step);
    case Lose => OtherStepIsSound(s, step);
  }

  ghost predicate IsRun(states: seq<System>, steps: seq<Step>) {
    && |states| == |steps| + 1
    && forall i :: 0 <= i < |steps| ==> Enabled(states[i], steps[i]) && states[i + 1] == Next(states[i], steps[i])
  }

  ghost predicate HarmlessRun(states: seq<System>, steps: seq<Step>)
    requires IsRun(states, steps)
  {
    forall i :: 0 <= i < |steps| ==> Harmless(states[i], steps[i])
  }

  function Start(cursor: nat, log: nat, refused: set<nat>): System {
    System(Client(cursor, [], None, [], false, false, [], cursor), Closed, log, refused, None)
  }

  /**
   Over every run of harmless steps the client shows each event id once, in order and
   without a gap, from its start cursor or from 1 after a stale cursor was reset;
   remembered ids are at or below the cursor.
   */
  lemma {:induction false} EveryRunIsGapFree(
    states: seq<System>, steps: seq<Step>, cursor: nat, log: nat, refused: set<nat>, n: nat)
    requires IsRun(states, steps) && HarmlessRun(states, steps) && n < |states|
    requires states[0] == Start(cursor, log, refused)
    ensures Sound(states[n])
    ensures states[n].client.shown == Ids(states[n].client.base, states[n].client.cursor)
    ensures states[n].client.base == cursor || states[n].client.base == 0
    ensures forall id :: id in states[n].client.seen ==> id <= states[n].client.cursor
  {
    hide Enabled, Next, Harmless, Faithful, Idle, Busy;
    if n == 0 {
      StartIsSound(cursor, log, refused);
    } else {
      EveryRunIsGapFree(states, steps, cursor, log, refused, n - 1);
      StepIsSound(states[n - 1], steps[n - 1]);
      StepKeepsBase(states[n - 1], steps[n - 1]);
    }
    FaithfulMeans(states[n].client);
  }

  lemma StartIsSound(cursor: nat, log: nat, refused: set<nat>)
    ensures Sound(Start(cursor, log, refused))
  {
  }

  lemma FaithfulMeans(c: Client)
    requires Faithful(c)
    ensures c.shown == Ids(c.base, c.cursor) && forall id :: id in c.seen ==> id <= c.cursor
  {
  }

  lemma StepKeepsBase(s: System, step: Step)
    requires Enabled(s, step)
    ensures Next(s, step).client.base == s.client.base || Next(s, step).client.base == 0
  {
    hide RenderAll;
    var c := s.client;
    if step.Arrive? {
      var ids := PageIds(s.page.value, c.recovering.value.since);
      RenderKeeps(c, ids);
      var rendered := RenderAll(c, ids);
      RenderKeeps(rendered.(recovering := None, pending := []), c.pending);
    } else if step.Fail? {
      RenderKeeps(c.(recovering := None, pending := []), c.pending);
    }
  }

  /** Once a connected client has caught up, it has shown the whole log up to its end. */
  lemma CaughtUp(s: System)
    requires Sound(s) && s.client.recovering.None? && s.socket.Open? && s.socket.position == s.log
    ensures s.client.shown == Ids(s.client.base, s.log)
  {
  }

  /**
   Steps that are harmless in every sound state: all but a failure, a lag message during a
   recovery, an event that arrives while a reconnected socket waits for the old recovery,
   and one that is refused.
   */
  lemma UsuallyHarmless(s: System, step: Step)
    requires Sound(s) && Enabled(s, step) && !step.Fail?
    requires step.Lag? ==> s.client.recovering.None?
    requires step.Deliver? ==> !s.client.waiting && s.socket.position + 1 !in s.refused
    ensures Harmless(s, step)
  {
    hide Faithful, PageIds;
  }

  // ---------- every other step can lose events ----------

  /** The screen has a gap, or a client that has received everything is not at the end of the log. */
  ghost predicate Lost(s: System) {
    || !Faithful(s.client)
    || (s.client.recovering.None? && s.socket == Open(s.log) && s.client.cursor != s.log)
  }

  lemma SoundIsNotLost(s: System)
    requires Sound(s)
    ensures !Lost(s)
  {
  }

  /** The state after some steps, if they can all be taken. */
  function Run(s: System, steps: seq<Step>): Option<System>
    decreases |steps|
  {
    if steps == [] then Some(s)
    else if Enabled(s, steps[0]) then Run(Next(s, steps[0]), steps[1..]) else None
  }

  ghost predicate CanLose(s: System) {
    exists steps: seq<Step> :: Run(s, steps).Some? && Lost(Run(s, steps).value)
  }

  lemma LosesNow(s: System)
    requires Lost(s)
    ensures CanLose(s)
  {
    assert Run(s, []) == Some(s);
  }

  lemma LosesLater(s: System, step: Step)
    requires Enabled(s, step) && CanLose(Next(s, step))
    ensures CanLose(s)
  {
    hide Enabled, Next, Lost;
    var steps :| Run(Next(s, step), steps).Some? && Lost(Run(Next(s, step), steps).value);
    assert ([step] + steps)[1..] == steps;
    assert Run(s, [step] + steps) == Run(Next(s, step), steps);
  }

  /** A live event beyond the next one breaks the screen. */
  lemma RenderGap(c: Client, id: nat)
    requires Faithful(c) && id > c.cursor + 1
    ensures !Faithful(Render(c, id)) && Render(c, id).cursor == id
  {
    FaithfulMeans(c);
    assert |Render(c, id).shown| == |c.shown| + 1;
  }

  /** Without a recovery, a socket ahead of the cursor or a cursor ahead of the log loses events. */
  lemma {:induction false} StrandedLoses(s: System)
    requires Faithful(s.client) && s.client.recovering.None? && s.socket.Open? && s.socket.position <= s.log
    requires !(s.socket.position <= s.client.cursor <= s.log)
    ensures CanLose(s)
    decreases s.log - s.socket.position
  {
    hide Faithful, CanLose;
    var c, id := s.client, s.socket.position + 1;
    if s.socket.position == s.log {
      LosesNow(s);
    } else if id in s.refused {
      StrandedLoses(Next(s, Deliver));
      LosesLater(s, Deliver);
    } else if id > c.cursor + 1 {
      RenderGap(c, id);
      LosesNow(Next(s, Deliver));
      LosesLater(s, Deliver);
    } else {
      assert c.cursor > s.log;
      StrandedLoses(Next(s, Deliver));
      LosesLater(s, Deliver);
    }
  }

  /** A recovery that fails with nothing buffered leaves the socket open beyond a gap. */
  lemma FailedRecoveryLosesEvents(s: System)
    requires Sound(s) && Enabled(s, Fail) && !Harmless(s, Fail)
    ensures CanLose(Next(s, Fail))
  {
    hide Faithful, CanLose;
    var c := s.client;
    assert RenderAll(c.(recovering := None, pending := []), []) == c.(recovering := None, pending := []);
    SameScreen(c, Next(s, Fail).client);
    StrandedLoses(Next(s, Fail));
  }

  /** A socket that moves on behind the last page leaves events that are never read. */
  lemma SkippedEventsAreLost(s: System, t: System)
    requires Sound(s) && s.client.recovering.Some? && !s.client.waiting && !s.client.overflow && s.socket.Open?
    requires t.socket.Open? && t == s.(socket := t.socket) && s.socket.position <= t.socket.position <= s.log
    requires !Linked(s, t.socket.position)
    ensures CanLose(t)
  {
    hide Faithful, CanLose, PageIds, RenderAll;
    assert LastPage(s) && LastPage(t) && Flushed(t) == Flushed(s);
    LastPageShows(s);
    LastPageFlushes(t);
    hide Flushed, Next;
    BufferEndsBelow(s);
    StrandedLoses(Next(t, Arrive));
    LosesLater(t, Arrive);
  }

  /** Events skipped behind the last page are never read, and the recovery ends with the socket beyond them. */
  lemma LagDuringRecoveryLosesEvents(s: System, missed: nat)
    requires Sound(s) && Enabled(s, Lag(missed)) && !Harmless(s, Lag(missed))
    ensures CanLose(Next(s, Lag(missed)))
  {
    hide Sound, CanLose, Linked;
    SkippedEventsAreLost(s, Next(s, Lag(missed)));
  }

  /** An event that does not parse and is behind the cursor and the last page is never shown. */
  lemma RefusedEventIsLost(s: System)
    requires Sound(s) && Enabled(s, Deliver) && !Harmless(s, Deliver) && s.socket.position + 1 in s.refused
    ensures CanLose(Next(s, Deliver))
  {
    hide Faithful, CanLose, PageIds;
    var t := Next(s, Deliver);
    if s.client.recovering.None? {
      StrandedLoses(t);
    } else {
      BufferEndsBelow(s);
      SkippedEventsAreLost(s, t);
    }
  }

  lemma BufferEndsBelow(s: System)
    requires s.client.recovering.Some? && Busy(s) && s.socket.Open?
    ensures var ids := s.client.pending;
      forall id :: id in ids ==> id <= s.socket.position && id <= ids[|ids| - 1]
  {
  }

  /**
   An event that reaches a reconnected socket while the old recovery waits for its last page
   is shown before those in between, which the recovery that follows then skips.
   */
  lemma ReconnectionLosesEvents(s: System)
    requires Sound(s) && Enabled(s, Deliver) && !Harmless(s, Deliver) && s.socket.position + 1 !in s.refused
    ensures CanLose(Next(s, Deliver))
  {
    hide Faithful, CanLose, PageIds, RenderAll;
    var t, id := Next(s, Deliver), s.socket.position + 1;
    assert LastPage(s) && LastPage(t);
    assert s.client.pending + [id] == t.client.pending;
    LastPageShows(s);
    BufferEndsBelow(s);
    LateEventFlushes(s, t, id);
    RenderGap(Flushed(s), id);
    LastPageFlushes(t);
    hide Flushed, Next;
    SameScreen(Flushed(t), Render(Flushed(s), id));
    SameScreen(Flushed(t), Next(t, Arrive).client);
    LosesNow(Next(t, Arrive));
    LosesLater(t, Arrive);
  }

  lemma LateEventFlushes(s: System, t: System, id: nat)
    requires s.client.recovering.Some? && s.page.Some? && !s.client.overflow
    requires t.client == s.client.(pending := s.client.pending + [id]) && t.page == s.page
    ensures var a, b := Flushed(t), Render(Flushed(s), id);
      a.cursor == b.cursor && a.seen == b.seen && a.shown == b.shown && a.base == b.base
  {
    hide Render, PageIds;
    var ids := PageIds(s.page.value, s.client.recovering.value.since);
    var a, b := RenderAll(t.client, ids), RenderAll(s.client, ids);
    RenderScreens(t.client, s.client, ids);
    RenderScreens(a.(recovering := None, pending := []), b.(recovering := None, pending := []), t.client.pending);
    RenderLast(b.(recovering := None, pending := []), s.client.pending, id);
  }

  /** Rendering depends on the screen alone. */
  lemma {:induction false} RenderScreens(c: Client, d: Client, ids: seq<nat>)
    requires c.cursor == d.cursor && c.seen == d.seen && c.shown == d.shown && c.base == d.base
    ensures var a, b := RenderAll(c, ids), RenderAll(d, ids);
      a.cursor == b.cursor && a.seen == b.seen && a.shown == b.shown && a.base == b.base
    decreases |ids|
  {
    if ids == [] {
    } else {
      RenderScreens(Render(c, ids[0]), Render(d, ids[0]), ids[1..]);
    }
  }

  lemma {:induction false} RenderLast(c: Client, ids: seq<nat>, id: nat)
    ensures RenderAll(c, ids + [id]) == Render(RenderAll(c, ids), id)
    decreases |ids|
  {
    hide Render;
    if ids == [] {
      assert ids + [id] == [id];
      assert RenderAll(Render(c, id), [id][1..]) == Render(c, id);
    } else {
      assert (ids + [id])[1..] == ids[1..] + [id];
      RenderLast(Render(c, ids[0]), ids[1..], id);
    }
  }

  /** After a step that is not harmless, some steps lead to a gap or an incomplete screen. */
  lemma HarmfulStepLosesEvents(s: System, step: Step)
    requires Sound(s) && Enabled(s, step) && !Harmless(s, step)
    ensures CanLose(Next(s, step))
  {
    hide Sound, CanLose;
    match step
    case Fail => FailedRecoveryLosesEvents(s);
    case Lag(missed) => LagDuringRecoveryLosesEvents(s, missed);
    case Deliver =>
      if s.socket.position + 1 in s.refused {
        RefusedEventIsLost(s);
      } else {
        ReconnectionLosesEvents(s);
      }
  }

  /** After `steps` a step can be taken that is not harmless. */
  ghost predicate Threatens(s: System, steps: seq<Step>, step: Step) {
    match Run(s, steps)
    case None => false
    case Some(t) => Sound(t) && Enabled(t, step) && !Harmless(t, step)
  }

  lemma ThreatensNow(s: System, step: Step)
    requires Sound(s) && Enabled(s, step) && !Harmless(s, step)
    ensures Threatens(s, [], step)
  {
  }

  lemma ThreatensLater(s: System, first: Step, t: System, steps: seq<Step>, step: Step)
    requires Enabled(s, first) && Next(s, first) == t && Threatens(t, steps, step)
    ensures Threatens(s, [first] + steps, step)
  {
    hide Next, Enabled, Sound, Harmless;
    assert ([first] + steps)[1..] == steps;
  }

  function Recovering(socket: Socket, log: nat, page: Option<nat>, waiting: bool): System {
    System(Client(0, [], Some(Recovery(0, false)), [], false, waiting, [], 0), socket, log, {}, page)
  }

  lemma ConnectThen(steps: seq<Step>, step: Step)
    requires Threatens(Recovering(Open(1), 1, None, false), steps, step)
    ensures Threatens(Start(0, 1, {}), [Subscribe, Opened] + steps, step)
  {
    hide Threatens;
    var c := Start(0, 1, {}).(socket := Connecting(1));
    ThreatensLater(c, Opened, Recovering(Open(1), 1, None, false), steps, step);
    ThreatensLater(Start(0, 1, {}), Subscribe, c, [Opened] + steps, step);
    assert [Subscribe] + ([Opened] + steps) == [Subscribe, Opened] + steps;
  }

  /**
   All four kinds are met in short runs: a failure, a lag message and a reconnection during
   the first recovery, and after it a live event that does not parse.
   */
  lemma HarmfulStepsOccur()
    ensures Threatens(Start(0, 1, {}), [Subscribe, Opened], Fail)
    ensures Threatens(Start(0, 1, {}), [Subscribe, Opened, Answer, Append(true)], Lag(1))
    ensures Threatens(
      Start(0, 1, {}), [Subscribe, Opened, Answer, Lose, Append(true), Subscribe, Opened, Append(true)], Deliver)
    ensures Threatens(Start(0, 1, {}), [Subscribe, Opened, Answer, Arrive, Append(false)], Deliver)
  {
    hide Threatens;
    FailureThreatens();
    ConnectThen([], Fail);
    assert [Subscribe, Opened] + [] == [Subscribe, Opened];
    LagThreatens();
    ConnectThen([Answer, Append(true)], Lag(1));
    assert [Subscribe, Opened] + [Answer, Append(true)] == [Subscribe, Opened, Answer, Append(true)];
    ReconnectionThreatens();
    ConnectThen([Answer, Lose, Append(true), Subscribe, Opened, Append(true)], Deliver);
    RefusalThreatens();
    ConnectThen([Answer, Arrive, Append(false)], Deliver);
    assert [Subscribe, Opened] + [Answer, Arrive, Append(false)] ==
      [Subscribe, Opened, Answer, Arrive, Append(false)];
    assert [Subscribe, Opened] + [Answer, Lose, Append(true), Subscribe, Opened, Append(true)] ==
      [Subscribe, Opened, Answer, Lose, Append(true), Subscribe, Opened, Append(true)];
  }

  lemma RefusalThreatens()
    ensures Threatens(Recovering(Open(1), 1, None, false), [Answer, Arrive, Append(false)], Deliver)
  {
    FirstPage();
    UnreadThreatens();
    hide Threatens, Sound, Harmless, Turn, PageIds;
    var a, b := Recovering(Open(1), 1, Some(1), false), System(Shown(), Open(1), 1, {}, None);
    var more := [Append(false)];
    assert b.refused + {b.log + 1} == {2} && [Append(false)] + [] == more;
    ThreatensLater(b, Append(false), b.(log := 2, refused := {2}), [], Deliver);
    ThreatensLater(a, Arrive, b, more, Deliver);
    ThreatensLater(Recovering(Open(1), 1, None, false), Answer, a, [Arrive] + more, Deliver);
    assert [Answer] + ([Arrive] + more) == [Answer, Arrive, Append(false)];
  }

  /** The client after its first event. */
  function Shown(): Client {
    Client(1, [1], None, [], false, false, [1], 0)
  }

  lemma FirstPage()
    ensures PageIds(1, 0) == [1]
    ensures Turn(Recovering(Open(1), 1, Some(1), false).client, [1], 1, 1) == (Shown(), false)
  {
    var c := Recovering(Open(1), 1, Some(1), false).client;
    assert Ids(0, 1) == [1];
    assert [1][1..] == [] && [] + [1] == [1];
    assert RenderAll(c, [1]) == Render(c, 1);
    var d := Render(c, 1).(recovering := None, pending := []);
    assert RenderAll(d, []) == d;
  }

  lemma UnreadThreatens()
    ensures Threatens(System(Shown(), Open(1), 2, {2}, None), [], Deliver)
  {
    hide Threatens;
    var s := System(Shown(), Open(1), 2, {2}, None);
    assert Ids(0, 1) == [1] && [1][0..] == [1];
    ThreatensNow(s, Deliver);
  }

  lemma FailureThreatens()
    ensures Threatens(Recovering(Open(1), 1, None, false), [], Fail)
  {
    ThreatensNow(Recovering(Open(1), 1, None, false), Fail);
  }

  lemma LagThreatens()
    ensures Threatens(Recovering(Open(1), 1, None, false), [Answer, Append(true)], Lag(1))
  {
    SkippedThreatens();
    hide Threatens, Sound, Harmless;
    var a := Recovering(Open(1), 1, Some(1), false);
    ThreatensLater(a, Append(true), a.(log := 2), [], Lag(1));
    assert [Append(true)] + [] == [Append(true)] && [Answer] + [Append(true)] == [Answer, Append(true)];
    ThreatensLater(Recovering(Open(1), 1, None, false), Answer, a, [Append(true)], Lag(1));
  }

  lemma SkippedThreatens()
    ensures Threatens(Recovering(Open(1), 2, Some(1), false), [], Lag(1))
  {
    hide Threatens;
    ThreatensNow(Recovering(Open(1), 2, Some(1), false), Lag(1));
  }

  lemma ReconnectionThreatens()
    ensures Threatens(
      Recovering(Open(1), 1, None, false), [Answer, Lose, Append(true), Subscribe, Opened, Append(true)], Deliver)
  {
    WaitingThreatens();
    hide Threatens, Sound, Harmless;
    var a, b := Recovering(Open(1), 1, Some(1), false), Recovering(Closed, 2, Some(1), false);
    var c, more := b.(socket := Connecting(2)), [Opened, Append(true)];
    ThreatensLater(b, Subscribe, c, more, Deliver);
    ThreatensLater(b.(log := 1), Append(true), b, [Subscribe] + more, Deliver);
    ThreatensLater(a, Lose, b.(log := 1), [Append(true)] + ([Subscribe] + more), Deliver);
    ThreatensLater(
      Recovering(Open(1), 1, None, false), Answer, a, [Lose] + ([Append(true)] + ([Subscribe] + more)), Deliver);
    assert [Answer] + ([Lose] + ([Append(true)] + ([Subscribe] + more))) ==
      [Answer, Lose, Append(true), Subscribe, Opened, Append(true)];
  }

  lemma WaitingThreatens()
    ensures Threatens(Recovering(Connecting(2), 2, Some(1), false), [Opened, Append(true)], Deliver)
  {
    LateThreatens();
    hide Threatens, Sound, Harmless;
    var d := Recovering(Open(2), 2, Some(1), true);
    ThreatensLater(d, Append(true), d.(log := 3), [], Deliver);
    assert [Append(true)] + [] == [Append(true)] && [Opened] + [Append(true)] == [Opened, Append(true)];
    ThreatensLater(Recovering(Connecting(2), 2, Some(1), false), Opened, d, [Append(true)], Deliver);
  }

  lemma LateThreatens()
    ensures Threatens(Recovering(Open(2), 3, Some(1), true), [], Deliver)
  {
    hide Threatens;
    ThreatensNow(Recovering(Open(2), 3, Some(1), true), Deliver);
  }
}
