/** The per-job event store (internal/events/events.go): an append-only file of numbered events, a
    bounded buffer of the newest ones, and replay after an id with detection of lost events. */
module EventLog {
  import opened Sse
  import Text

  // ---------------------------------------------------------------- what the operations mean

  /** The events with an id of at least `min`, in order. */
  function FromId(events: seq<Event>, min: int): seq<Event> {
    if events == [] then []
    else if events[0].id >= min then [events[0]] + FromId(events[1..], min)
    else FromId(events[1..], min)
  }

  /** Replay(afterID): the events and whether some were lost. */
  function Replayed(file: seq<Event>, afterId: int): (seq<Event>, bool) {
    if afterId <= 0 then (file, false)
    else if file == [] then ([], false)
    else if file[0].id > afterId + 1 then (file, true)
    else (FromId(file, afterId + 1), false)
  }

  function Trimmed(events: seq<Event>, limit: nat): (r: seq<Event>)
    ensures |r| <= limit && |r| <= |events| && r == events[|events| - |r|..] && (|r| < limit ==> r == events)
  {
    if |events| <= limit then events else events[|events| - limit..]
  }

  function NextId(file: seq<Event>): int {
    if file == [] then 1 else file[|file| - 1].id + 1
  }

  lemma {:induction false} FromIdAppend(a: seq<Event>, e: Event, min: int)
    ensures FromId(a + [e], min) == FromId(a, min) + if e.id >= min then [e] else []
  {
    if a == [] {
      assert [e][1..] == [];
    } else {
      assert (a + [e])[1..] == a[1..] + [e];
      FromIdAppend(a[1..], e, min);
    }
  }

  // ---------------------------------------------------------------- the store

  class Store {
    var file: seq<Event>
    var nextId: int
    var buffer: array<Event>     // the slice's backing array
    var used: nat                // the slice's length
    const limit: nat

    ghost predicate Valid()
      reads this
    {
      used <= buffer.Length && 0 < limit
    }

    ghost function Buffered(): seq<Event>
      reads this, buffer
      requires Valid()
    {
      buffer[..used]
    }

    /** NewStore on the events found in the file. */
    constructor (bufferLimit: int, file: seq<Event>)
      ensures Valid() && fresh(buffer) && limit == (if bufferLimit <= 0 then 128 else bufferLimit)
      ensures this.file == file && nextId == NextId(file) && Buffered() == Trimmed(file, limit)
    {
      limit := if bufferLimit <= 0 then 128 else bufferLimit;
      this.file := file;
      nextId := 1;
      new;
      SetBuffer(Trimmed(file, limit));
      if |file| > 0 {
        nextId := file[|file| - 1].id + 1;
      }
    }

    method SetBuffer(events: seq<Event>)
      requires 0 < limit
      modifies this`buffer, this`used
      ensures Valid() && fresh(buffer) && Buffered() == events
    {
      var slots := new Event[|events|](i requires 0 <= i < |events| => events[i]);
      buffer, used := slots, |events|;
    }

    /** An append that no other one overlaps: the line is in the file before the next starts. */
    method Append(kind: string, data: string) returns (e: Event)
      requires Valid()
      modifies this
      ensures Valid() && e == Event(old(nextId), kind, data)
      ensures nextId == old(nextId) + 1 && file == old(file) + [e]
      ensures Buffered() == Trimmed(old(Buffered()) + [e], limit)
    {
      e := Event(nextId, kind, data);
      nextId := nextId + 1;
      SetBuffer(Trimmed(buffer[..used] + [e], limit));
      file := file + [e];
    }

    method Replay(afterId: int) returns (events: seq<Event>, lost: bool)
      ensures (events, lost) == Replayed(file, afterId)
    {
      if afterId <= 0 {
        return file, false;
      }
      if |file| == 0 {
        return [], false;
      }
      if file[0].id > afterId + 1 {
        return file, true;
      }
      var replay := [];
      var i := 0;
      while i < |file|
        invariant 0 <= i <= |file|
        invariant replay == FromId(file[..i], afterId + 1)
      {
        assert file[..i + 1] == file[..i] + [file[i]];
        FromIdAppend(file[..i], file[i], afterId + 1);
        if file[i].id > afterId {
          replay := replay + [file[i]];
        }
        i := i + 1;
      }
      assert file[..i] == file;
      return replay, false;
    }

    /** The second loop reuses the slice that has just been stored as the buffer, so the buffer's
        elements are overwritten by the first events that stay in the file. */
    method DropReplayBefore(minId: int)
      requires Valid()
      modifies this
      ensures Valid() && file == FromId(old(file), minId) && nextId == old(nextId)
      ensures var kept := FromId(old(Buffered()), minId);
              |Buffered()| == |kept|
              && forall i | 0 <= i < |kept| :: Buffered()[i] == if i < |file| then file[i] else kept[i]
    {
      var capacity := used;
      var slots := new Event[capacity];
      ghost var before := Buffered();
      var n, i := 0, 0;
      while i < capacity
        invariant 0 <= i <= capacity == used && n <= i && Valid() && Buffered() == before
        invariant slots[..n] == FromId(before[..i], minId)
        invariant fresh(slots) && slots != buffer && unchanged(this)
      {
        assert before[..i + 1] == before[..i] + [before[i]];
        FromIdAppend(before[..i], before[i], minId);
        if buffer[i].id >= minId {
          slots[n] := buffer[i];
          n := n + 1;
        }
        i := i + 1;
      }
      assert before[..i] == before;
      ghost var kept := FromId(before, minId);
      buffer, used := slots, n;
      var events := file;
      var filtered := [];
      i := 0;
      while i < |events|
        invariant 0 <= i <= |events| && filtered == FromId(events[..i], minId)
        invariant buffer == slots && used == |kept| <= slots.Length == capacity
        invariant file == events == old(file) && nextId == old(nextId)
        invariant forall k | 0 <= k < used :: slots[k] == if k < |filtered| then filtered[k] else kept[k]
        modifies slots
      {
        assert events[..i + 1] == events[..i] + [events[i]];
        FromIdAppend(events[..i], events[i], minId);
        if events[i].id >= minId {
          if |filtered| < capacity {
            slots[|filtered|] := events[i];
          }
          filtered := filtered + [events[i]];
        }
        i := i + 1;
      }
      assert events[..i] == events;
      file := filtered;
    }
  }

  // ---------------------------------------------------------------- whole runs

  /** Appends that do not overlap, drops, and a restart that opens the file again. */
  datatype Op = DoAppend(kind: string, data: string) | DoDrop(minId: int) | DoReopen

  /** The file, the next id, and every event ever appended. */
  datatype World = World(file: seq<Event>, nextId: int, all: seq<Event>)

  const EMPTY := World([], 1, [])

  function Do(w: World, op: Op): World {
    match op
    case DoAppend(kind, data) =>
      var e := Event(w.nextId, kind, data);
      World(w.file + [e], w.nextId + 1, w.all + [e])
    case DoDrop(minId) => w.(file := FromId(w.file, minId))
    case DoReopen => w.(nextId := NextId(w.file))
  }

  function Run(w: World, ops: seq<Op>): World
    decreases ops
  {
    if ops == [] then w else Run(Do(w, ops[0]), ops[1..])
  }

  /** No restart finds the file emptied of events that were appended. */
  predicate KeepsSome(w: World, ops: seq<Op>)
    decreases ops
  {
    ops == [] || ((ops[0].DoReopen? ==> w.file != [] || w.all == []) && KeepsSome(Do(w, ops[0]), ops[1..]))
  }

  /** The events carry the ids 1, 2, 3 and so on. */
  ghost predicate Numbered(all: seq<Event>) {
    forall i | 0 <= i < |all| :: all[i].id == i + 1
  }

  function Dropped(w: World): int {
    |w.all| - |w.file|
  }

  /** The retained events are the newest ones, and the next id is new. */
  ghost predicate Sound(w: World) {
    && Numbered(w.all) && w.nextId == |w.all| + 1
    && 0 <= Dropped(w) && w.file == w.all[Dropped(w)..]
  }

  lemma {:induction false} FromIdOfNumbered(all: seq<Event>, k: nat, min: int)
    requires Numbered(all) && k <= |all|
    ensures FromId(all[k..], min) == all[if min - 1 <= k then k else if min - 1 > |all| then |all| else min - 1..]
    decreases |all| - k
  {
    if k < |all| {
      assert all[k..][1..] == all[k + 1..];
      FromIdOfNumbered(all, k + 1, min);
      if k + 1 >= min {
        assert [all[k]] + all[k + 1..] == all[k..];
      }
    } else {
      assert all[k..] == [];
    }
  }

  /** One operation keeps the log sound, except exactly a restart on a file that has been emptied. */
  lemma StepSound(w: World, op: Op)
    requires Sound(w)
    ensures Sound(Do(w, op)) <==> (op.DoReopen? ==> w.file != [] || w.all == [])
  {
    match op
    case DoAppend(kind, data) =>
      var n := Do(w, op);
      assert n.all[Dropped(n)..] == w.all[Dropped(w)..] + [Event(w.nextId, kind, data)];
    case DoDrop(minId) =>
      FromIdOfNumbered(w.all, Dropped(w), minId);
      var n := Do(w, op);
      assert n.file == n.all[Dropped(n)..];
    case DoReopen =>
      if w.file != [] { assert w.file[|w.file| - 1] == w.all[|w.all| - 1]; }
  }

  /** A restart found the file emptied: what was appended is forgotten, and so are its ids. */
  ghost predicate Forgotten(w: World) {
    Numbered(w.all) && w.all != [] && w.file == [] && w.nextId == 1
  }

  lemma {:induction false} StaysWrong(w: World, ops: seq<Op>)
    requires Forgotten(w) || !Numbered(w.all)
    ensures var n := Run(w, ops); Forgotten(n) || !Numbered(n.all)
    decreases ops
  {
    if ops != [] {
      var n := Do(w, ops[0]);
      if ops[0].DoAppend? {
        assert n.all[|w.all|].id == w.nextId;
        if !Numbered(w.all) {
          var i :| 0 <= i < |w.all| && w.all[i].id != i + 1;
          assert n.all[i] == w.all[i];
        }
      }
      StaysWrong(n, ops[1..]);
    }
  }

  /** A run keeps the log sound, with new ids for new events and exactly the newest events retained, if
      and only if none of its restarts finds the log emptied. */
  lemma {:induction false} RunSound(w: World, ops: seq<Op>)
    requires Sound(w)
    ensures Sound(Run(w, ops)) <==> KeepsSome(w, ops)
    decreases ops
  {
    if ops != [] {
      StepSound(w, ops[0]);
      if Sound(Do(w, ops[0])) {
        RunSound(Do(w, ops[0]), ops[1..]);
      } else {
        StaysWrong(Do(w, ops[0]), ops[1..]);
      }
    }
  }

  predicate NoAppends(ops: seq<Op>) {
    forall op <- ops :: !op.DoAppend?
  }

  /** Nothing is appended after a restart that found the log emptied. */
  predicate FreshIds(w: World, ops: seq<Op>)
    decreases ops
  {
    if ops == [] then true
    else if ops[0].DoReopen? && w.file == [] && w.all != [] then NoAppends(ops)
    else FreshIds(Do(w, ops[0]), ops[1..])
  }

  ghost predicate DistinctIds(all: seq<Event>) {
    forall i, j :: 0 <= i < j < |all| ==> all[i].id != all[j].id
  }

  lemma {:induction false} NothingAppended(w: World, ops: seq<Op>)
    requires NoAppends(ops)
    ensures Run(w, ops).all == w.all
    decreases ops
  {
    if ops != [] {
      assert ops[0] in ops;
      NothingAppended(Do(w, ops[0]), ops[1..]);
    }
  }

  lemma {:induction false} StaysDoubled(w: World, ops: seq<Op>)
    requires !DistinctIds(w.all)
    ensures !DistinctIds(Run(w, ops).all)
    decreases ops
  {
    if ops != [] {
      var i, j :| 0 <= i < j < |w.all| && w.all[i].id == w.all[j].id;
      var n := Do(w, ops[0]);
      assert n.all[i] == w.all[i] && n.all[j] == w.all[j];
      StaysDoubled(n, ops[1..]);
    }
  }

  lemma {:induction false} ForgottenDoubles(w: World, ops: seq<Op>)
    requires Forgotten(w)
    ensures DistinctIds(Run(w, ops).all) <==> NoAppends(ops)
    decreases ops
  {
    if NoAppends(ops) {
      NothingAppended(w, ops);
    } else {
      var n := Do(w, ops[0]);
      if ops[0].DoAppend? {
        assert n.all[0].id == n.all[|w.all|].id == 1;
        StaysDoubled(n, ops[1..]);
      } else {
        assert ops == [ops[0]] + ops[1..];
        ForgottenDoubles(n, ops[1..]);
      }
    }
  }

  /** No two events of a run get the same id, if and only if nothing is appended after a restart that
      found the log emptied. */
  lemma {:induction false} IdsStayDistinct(w: World, ops: seq<Op>)
    requires Sound(w)
    ensures DistinctIds(Run(w, ops).all) <==> FreshIds(w, ops)
    decreases ops
  {
    if ops != [] {
      StepSound(w, ops[0]);
      if Sound(Do(w, ops[0])) {
        IdsStayDistinct(Do(w, ops[0]), ops[1..]);
      } else {
        ForgottenDoubles(Do(w, ops[0]), ops[1..]);
        assert ops == [ops[0]] + ops[1..];
      }
    }
  }

  /** A run that drops everything and restarts gives two different events the same id. */
  lemma EmptiedLogReusesIds()
    ensures var w := Run(EMPTY, [DoAppend("created", "{}"), DoDrop(2), DoReopen, DoAppend("queued", "{}")]);
            |w.all| == 2 && w.all[0] != w.all[1] && w.all[0].id == w.all[1].id == 1
  {
    var a, b := Event(1, "created", "{}"), Event(1, "queued", "{}");
    var o1, o2, o3, o4 := DoAppend("created", "{}"), DoDrop(2), DoReopen, DoAppend("queued", "{}");
    assert Do(EMPTY, o1) == World([a], 2, [a]);
    assert [a][1..] == [] && FromId([], 2) == [] && FromId([a], 2) == [];
    assert Do(World([a], 2, [a]), o2) == World([], 2, [a]);
    assert Do(World([], 2, [a]), o3) == World([], 1, [a]);
    assert Do(World([], 1, [a]), o4) == World([b], 2, [a, b]);
    var ops := [o1, o2, o3, o4];
    assert ops[1..] == [o2, o3, o4] && [o2, o3, o4][1..] == [o3, o4] && [o3, o4][1..] == [o4] && [o4][1..] == [];
    assert Run(World([b], 2, [a, b]), []) == World([b], 2, [a, b]);
    assert Run(World([], 1, [a]), [o4]) == World([b], 2, [a, b]);
    assert Run(World([], 2, [a]), [o3, o4]) == World([b], 2, [a, b]);
  }

  function After(all: seq<Event>, afterId: int): seq<Event> {
    if afterId <= 0 then all else if afterId > |all| then [] else all[afterId..]
  }

  /** Where replay starts: what was asked for, or the first event that is retained if the beginning of it
      was dropped or everything was asked for. */
  function ReplayFrom(w: World, afterId: int): int {
    if afterId <= Dropped(w) || afterId <= 0 then Dropped(w) else if afterId > |w.all| then |w.all| else afterId
  }

  /** What replay returns, whatever was dropped: the newest events from some place on. */
  lemma ReplayIs(w: World, afterId: int)
    requires Sound(w)
    ensures 0 <= ReplayFrom(w, afterId) <= |w.all|
    ensures Replayed(w.file, afterId).0 == w.all[ReplayFrom(w, afterId)..]
  {
    if w.file != [] { assert w.file[0] == w.all[Dropped(w)]; }
    FromIdOfNumbered(w.all, Dropped(w), afterId + 1);
    if afterId > 0 && w.file == [] { assert w.all[|w.all|..] == []; }
  }

  /** Replay is exact: it returns every event ever appended after `afterId` if and only if none of
      those was dropped.  It reports a loss exactly when it was asked for the events after a positive
      id, some event is retained, and the very next event was dropped; it then returns all retained
      events. */
  lemma ReplayExact(w: World, afterId: int)
    requires Sound(w)
    ensures var (events, lost) := Replayed(w.file, afterId);
            && (events == After(w.all, afterId) <==> After(w.all, afterId) == [] || Dropped(w) <= afterId || Dropped(w) == 0)
            && (lost <==> 0 < afterId && w.file != [] && afterId + 1 <= Dropped(w))
            && (lost ==> events == w.file)
  {
    var (events, lost) := Replayed(w.file, afterId);
    if w.file != [] { assert w.file[0] == w.all[Dropped(w)]; }
    FromIdOfNumbered(w.all, Dropped(w), afterId + 1);
    if afterId <= 0 {
      assert events == w.all <==> Dropped(w) == 0;
    } else if w.file == [] {
    } else if lost {
      assert |events| < |After(w.all, afterId)|;
    }
  }

  // ---------------------------------------------------------------- resuming a stream

  /** What strconv.ParseInt makes of the Last-Event-ID header the desktop sends back. */
  function HeaderId(header: string): int {
    if Text.Digits(header) then Text.DigitsValue(header) else 0
  }

  /** The events of the log; heartbeats and notices of loss, which are printed among them, have no id. */
  function WithId(sent: seq<Event>): (es: seq<Event>)
    ensures forall e <- es :: e.id > 0
  {
    if sent == [] then [] else (if sent[0].id > 0 then [sent[0]] else []) + WithId(sent[1..])
  }

  lemma {:induction false} WithIdConcat(a: seq<Event>, b: seq<Event>)
    ensures WithId(a + b) == WithId(a) + WithId(b)
  {
    if a == [] {
      assert a + b == b;
    } else {
      assert (a + b)[1..] == a[1..] + b;
      WithIdConcat(a[1..], b);
    }
  }

  lemma {:induction false} LastIdOf(es: seq<Event>, before: string)
    ensures LastId(es, before) == if WithId(es) == [] then before else Text.Decimal(WithId(es)[|WithId(es)| - 1].id)
    decreases es
  {
    hide Text.Decimal;
    if es != [] { LastIdOf(es[1..], if es[0].id > 0 then Text.Decimal(es[0].id) else before); }
  }

  lemma HeaderOfId(n: nat)
    ensures HeaderId(Text.Decimal(n)) == n
  {
    Text.DecimalValue(n);
  }

  /** Of the events sent, the first `k` that were handed over hold the next ones of the log; the event
      after them, if it is one of the log, is the one after these. */
  lemma HandedOver(w: World, h: nat, sent: seq<Event>, k: nat)
    requires Numbered(w.all) && h <= |w.all| && WithId(sent) <= w.all[h..] && k <= |sent|
    ensures var c := |WithId(sent[..k])|;
            && h + c <= |w.all| && WithId(sent[..k]) == w.all[h..h + c]
            && (c > 0 ==> WithId(sent[..k])[c - 1].id == h + c)
            && (k < |sent| && sent[k].id > 0 ==> h + c < |w.all| && sent[k] == w.all[h + c] && sent[k].id == h + c + 1)
  {
    var c := |WithId(sent[..k])|;
    assert sent == sent[..k] + sent[k..];
    WithIdConcat(sent[..k], sent[k..]);
    assert WithId(sent[..k]) == WithId(sent)[..c];
    assert WithId(sent) == w.all[h..][..|WithId(sent)|];
    assert w.all[h..][..c] == w.all[h..h + c];
    if k < |sent| && sent[k].id > 0 {
      assert sent[k..][0] == sent[k];
      assert WithId(sent)[c] == sent[k] && w.all[h..][c] == w.all[h + c];
    }
  }

  /** What is replayed to a client that asks for the events after the `id`-th, if none of them was dropped. */
  lemma ReplayedAfter(w: World, id: nat)
    requires Sound(w) && id <= |w.all| && Dropped(w) <= id
    ensures Replayed(w.file, id).0 == w.all[id..]
  {
    hide Replayed;
    ReplayExact(w, id);
    assert w.all[0..] == w.all && w.all[|w.all|..] == [];
  }

  /** The id the client is left with, as the daemon reads it. */
  lemma ResumedId(w: World, h: nat, header: string, sent: seq<Event>, received: string)
    requires Numbered(w.all) && h <= |w.all| && HeaderId(header) == h && WithId(sent) <= w.all[h..]
    ensures var k := WholeFrames(sent, |received|);
            var c := |WithId(sent[..k])|;
            if InsideFrame(sent, received) then HeaderId(Text.Decimal(sent[k].id)) == h + c + 1
            else HeaderId(LastId(sent[..k], header)) == h + c
  {
    hide HeaderId, WithId, LastId, Numbered, Frames, IdLine;
    var k := WholeFrames(sent, |received|);
    HandedOver(w, h, sent, k);
    if InsideFrame(sent, received) {
      HeaderOfId(sent[k].id);
    } else {
      LastIdOf(sent[..k], header);
      HeaderOfId(h + |WithId(sent[..k])|);
    }
  }

  /** What was handed over and what is replayed, side by side. */
  lemma Rejoined(all: seq<Event>, h: nat, c: nat, got: seq<Event>, next: nat)
    requires h + c <= next <= |all| && got == all[h..h + c]
    ensures got + all[next..] == all[h..] <==> next == h + c
    ensures next == h + c + 1 ==> got + [all[h + c]] + all[next..] == all[h..]
    ensures Dispatches(got) + Dispatches(all[next..]) == Dispatches(all[h..]) <==> next == h + c
  {
    hide Dispatches;
    assert all[h..] == got + all[h + c..];
    DispatchesConcat(got, all[next..]);
    DispatchesLength(got + all[next..]);
    DispatchesLength(all[h..]);
    if next == h + c + 1 { assert all[h + c..] == [all[h + c]] + all[next..]; }
  }

  /** Printer, parser, header and replay together.  A desktop that holds the first `h` events of a job
      is sent those after them, with heartbeats between, and the connection is cut at any character.
      If it connects again with the id it was left with, and nothing it has not got was dropped, it is
      sent exactly the rest if and only if the cut was not inside a frame behind its id line; there,
      exactly the event of that frame is missed. */
  lemma ResumeIsExact(w: World, h: nat, header: string, sent: seq<Event>, received: string, lost: string)
    requires Sound(w) && h <= |w.all| && HeaderId(header) == h
    requires AllClean(sent) && WithId(sent) <= w.all[h..] && received + lost == Frames(sent)
    requires Dropped(w) <= h + |WithId(sent[..WholeFrames(sent, |received|)])|
    ensures var r, k := ReadAll(StartReader(header), received), WholeFrames(sent, |received|);
            var got, replay := WithId(sent[..k]), Replayed(w.file, HeaderId(r.eventId)).0;
            && r.out == Dispatches(sent[..k])
            && (got + replay == w.all[h..] <==> !InsideFrame(sent, received))
            && (InsideFrame(sent, received) ==> got + [sent[k]] + replay == w.all[h..])
            && (got == sent[..k] ==>
                  (r.out + Dispatches(replay) == Dispatches(w.all[h..]) <==> !InsideFrame(sent, received)))
  {
    hide ReadAll, Frames, Replayed, AllClean, InsideFrame, Sound, WithId, Dispatches, HeaderId, WholeFrames, LastId, Numbered;
    var k := WholeFrames(sent, |received|);
    var c := |WithId(sent[..k])|;
    var next := if InsideFrame(sent, received) then h + c + 1 else h + c;
    CutConnection(sent, received, lost, header);
    SoundNumbered(w);
    HandedOver(w, h, sent, k);
    ResumedId(w, h, header, sent, received);
    if InsideFrame(sent, received) { CutInside(sent, received); }
    ReplayedAfter(w, next);
    Rejoined(w.all, h, c, WithId(sent[..k]), next);
  }

  lemma SoundNumbered(w: World)
    requires Sound(w)
    ensures Numbered(w.all)
  {
  }

  lemma CutInside(sent: seq<Event>, received: string)
    requires InsideFrame(sent, received)
    ensures var k := WholeFrames(sent, |received|); k < |sent| && sent[k].id > 0
  {
  }

  lemma {:induction false} DispatchesLength(es: seq<Event>)
    ensures |Dispatches(es)| == |es|
  {
    if es != [] { DispatchesLength(es[1..]); }
  }

  const CREATED := Event(1, "created", "{}")
  const CUT := "id: 1\nevent: created\n"

  lemma CutFrame()
    ensures Frame(CREATED) == CUT + "data: {}\n\n" && IdLine(1) == "id: 1\n" && Frames([CREATED]) == Frame(CREATED)
  {
    assert Text.Decimal(1) == "1" && [CREATED][1..] == [] && Frames([]) == "";
  }

  lemma NothingAfterOne()
    ensures Replayed([CREATED], HeaderId(Text.Decimal(1))).0 == []
  {
    HeaderOfId(1);
    hide HeaderId;
    assert [CREATED][1..] == [] && FromId([], 2) == [];
  }

  /** A client whose stream ends behind the id line of the first event, and that asks for what comes
      after that id, never gets the event. */
  lemma CutEventIsMissed()
    ensures var r := ReadAll(StartReader(""), "id: 1\nevent: created\n");
            && "id: 1\nevent: created\n" <= Frames([Event(1, "created", "{}")])
            && r.out == [] && r.eventId == "1"
            && Replayed([Event(1, "created", "{}")], HeaderId(r.eventId)).0 == []
  {
    hide ReadAll, Frame, Frames, IdLine, Replayed, HeaderId;
    CutFrame();
    NothingAfterOne();
    assert Clean("created") && Clean("{}");
    ReadPartOfFrame(StartReader(""), CREATED, CUT);
    assert Text.Decimal(1) == "1";
  }
}
