/** The runner's side of file transfers: any number of them on one connection. */
module BlobReceiver {
  import opened Wrappers
  import opened Chunks

  /** A transfer: its descriptor on file number `file`, open at `offset`, what was
      hashed, and how it stands. */
  datatype Entry = Entry(path: string, file: nat, offset: nat, hashed: Bytes, failed: bool, closed: bool, complete: bool)

  /** A file keeps its content for those who have it open when its name is gone. */
  datatype File = File(path: string, content: Bytes)

  datatype State = State(blobs: map<string, Entry>, dir: map<string, nat>, files: seq<File>)

  const EMPTY := State(map[], map[], [])

  /** A frame, and whether the disk went along; or a claim by a turn. */
  datatype Event = Got(frame: Frame, disk: bool) | Take(id: string)

  /** A write through a descriptor, into a file that others may have cut short. */
  function WriteAt(content: Bytes, offset: nat, bytes: Bytes): Bytes {
    if bytes == [] then content else
    var before := if offset <= |content| then content[..offset] else content + seq(offset - |content|, i => 0 as byte);
    before + bytes + if offset + |bytes| < |content| then content[offset + |bytes|..] else []
  }

  function OnBegin(s: State, id: string, path: string, disk: bool): State {
    if !disk then s
    else if path in s.dir && s.dir[path] < |s.files| then
      var n := s.dir[path];
      State(s.blobs[id := Entry(path, n, 0, [], false, false, false)], s.dir, s.files[n := File(path, [])])
    else
      State(s.blobs[id := Entry(path, |s.files|, 0, [], false, false, false)], s.dir[path := |s.files|], s.files + [File(path, [])])
  }

  function OnChunk(s: State, id: string, payload: Bytes, disk: bool): State {
    if id !in s.blobs then s else
    var e := s.blobs[id];
    if e.failed then s
    else if !disk || e.closed then s.(blobs := s.blobs[id := e.(failed := true)])
    else
      s.(blobs := s.blobs[id := e.(offset := e.offset + |payload|, hashed := e.hashed + payload)],
         files := if e.file < |s.files|
                  then s.files[e.file := File(s.files[e.file].path, WriteAt(s.files[e.file].content, e.offset, payload))] else s.files)
  }

  /** Whether an end makes the transfer fail, which unlinks whatever has its name. */
  predicate Rejected(e: Entry, ok: bool, sum: string, hash: Bytes -> string) {
    !ok || e.failed || (sum != "" && hash(e.hashed) != sum)
  }

  function OnEnd(s: State, id: string, ok: bool, sum: string, hash: Bytes -> string): State {
    if id !in s.blobs then s
    else if Rejected(s.blobs[id], ok, sum, hash) then s.(blobs := s.blobs - {id}, dir := s.dir - {s.blobs[id].path})
    else s.(blobs := s.blobs[id := s.blobs[id].(closed := true, complete := true)])
  }

  /** The content of the file that has the name now. */
  function Content(s: State, path: string): Option<Bytes> {
    if path in s.dir && s.dir[path] < |s.files| then Some(s.files[s.dir[path]].content) else None
  }

  /** What a turn gets: the file's content, if the transfer is complete. */
  function Claimed(s: State, id: string): Option<Bytes> {
    if id in s.blobs && !s.blobs[id].failed && s.blobs[id].complete then Content(s, s.blobs[id].path) else None
  }

  function OnTake(s: State, id: string): State {
    if id in s.blobs && !s.blobs[id].failed && s.blobs[id].complete then s.(blobs := s.blobs - {id}) else s
  }

  function Step(s: State, ev: Event, hash: Bytes -> string): State {
    match ev
    case Got(Begin(id, path, _), disk) => OnBegin(s, id, path, disk)
    case Got(Chunk(id, _, payload), disk) => OnChunk(s, id, payload, disk)
    case Got(End(id, ok, sum), _) => OnEnd(s, id, ok, sum, hash)
    case Take(id) => OnTake(s, id)
  }

  function Run(evs: seq<Event>, hash: Bytes -> string): State {
    if evs == [] then EMPTY else Step(Run(evs[..|evs| - 1], hash), evs[|evs| - 1], hash)
  }

  function IdOf(ev: Event): string {
    match ev
    case Got(frame, _) => frame.id
    case Take(id) => id
  }

  // ------------------------------------------------------------------
  // How a transfer stands depends on its own frames alone
  // ------------------------------------------------------------------

  function Only(evs: seq<Event>, id: string): seq<Event> {
    if evs == [] then []
    else Only(evs[..|evs| - 1], id) + if IdOf(evs[|evs| - 1]) == id then [evs[|evs| - 1]] else []
  }

  /** A transfer's entry, whichever file it writes to. */
  function View(s: State, id: string): Option<Entry> {
    if id in s.blobs then Some(s.blobs[id].(file := 0)) else None
  }

  lemma OwnViewOnly(s: State, u: State, ev: Event, hash: Bytes -> string, id: string)
    requires IdOf(ev) == id && View(s, id) == View(u, id)
    ensures View(Step(s, ev, hash), id) == View(Step(u, ev, hash), id)
  {
    hide WriteAt;
  }

  lemma OthersLeaveEntry(s: State, ev: Event, hash: Bytes -> string, id: string)
    requires IdOf(ev) != id
    ensures id in Step(s, ev, hash).blobs <==> id in s.blobs
    ensures id in s.blobs ==> Step(s, ev, hash).blobs[id] == s.blobs[id]
  {
    hide WriteAt;
  }

  /** Under any interleaving, whatever the destinations, a transfer is received, fails
      and completes as if it were alone. */
  lemma {:induction false} AsIfAlone(evs: seq<Event>, hash: Bytes -> string, id: string)
    ensures View(Run(evs, hash), id) == View(Run(Only(evs, id), hash), id)
  {
    hide Step;
    if evs != [] {
      var front, ev := evs[..|evs| - 1], evs[|evs| - 1];
      AsIfAlone(front, hash, id);
      if IdOf(ev) == id {
        OwnViewOnly(Run(front, hash), Run(Only(front, id), hash), ev, hash, id);
        assert Only(evs, id)[..|Only(front, id)|] == Only(front, id);
      } else {
        OthersLeaveEntry(Run(front, hash), ev, hash, id);
        assert Only(evs, id) == Only(front, id);
      }
    }
  }

  /** The payloads received for a transfer since it began. */
  function Received(evs: seq<Event>, id: string): Bytes {
    if evs == [] then [] else
    match evs[|evs| - 1]
    case Got(Begin(x, _, _), true) => if x == id then [] else Received(evs[..|evs| - 1], id)
    case Got(Chunk(x, _, payload), true) => Received(evs[..|evs| - 1], id) + if x == id then payload else []
    case _ => Received(evs[..|evs| - 1], id)
  }

  /** The sender closed the transfer well, and its checksum, if it gave one, is that
      of the content. */
  predicate Vouched(ev: Event, id: string, content: Bytes, hash: Bytes -> string) {
    ev.Got? && ev.frame.End? && ev.frame.id == id && ev.frame.ok && (ev.frame.sum == "" || ev.frame.sum == hash(content))
  }

  ghost predicate Sound(s: State, evs: seq<Event>, id: string, hash: Bytes -> string) {
    id in s.blobs && !s.blobs[id].failed ==>
      var e := s.blobs[id];
      && e.hashed == Received(evs, id) && e.offset == |e.hashed| && e.complete == e.closed
      && (e.complete ==> exists i :: 0 <= i < |evs| && Vouched(evs[i], id, e.hashed, hash))
  }

  lemma {:induction false} RunSound(evs: seq<Event>, id: string, hash: Bytes -> string)
    ensures Sound(Run(evs, hash), evs, id, hash)
  {
    if evs != [] {
      var front, ev := evs[..|evs| - 1], evs[|evs| - 1];
      RunSound(front, id, hash);
      SoundStep(Run(front, hash), front, ev, id, hash);
      assert front + [ev] == evs;
    }
  }

  lemma SoundStep(s: State, front: seq<Event>, ev: Event, id: string, hash: Bytes -> string)
    requires Sound(s, front, id, hash)
    ensures Sound(Step(s, ev, hash), front + [ev], id, hash)
  {
    hide WriteAt;
    var evs := front + [ev];
    assert evs[..|front|] == front && evs[|front|] == ev;
    if IdOf(ev) != id {
      OthersLeaveEntry(s, ev, hash, id);
    }
    if id in s.blobs && !s.blobs[id].failed && s.blobs[id].complete {
      var i :| 0 <= i < |front| && Vouched(front[i], id, s.blobs[id].hashed, hash);
      assert Vouched(evs[i], id, s.blobs[id].hashed, hash);
    }
    if IdOf(ev) == id && ev.Got? && ev.frame.End? && id in s.blobs && !Rejected(s.blobs[id], ev.frame.ok, ev.frame.sum, hash) {
      assert Vouched(evs[|front|], id, s.blobs[id].hashed, hash);
    }
  }

  // ------------------------------------------------------------------
  // What the file holds does not
  // ------------------------------------------------------------------

  /** Files are numbered, and no file ever has two names. */
  predicate Named(s: State) {
    && (forall p | p in s.dir :: s.dir[p] < |s.files| && s.files[s.dir[p]].path == p)
    && (forall id | id in s.blobs :: s.blobs[id].file < |s.files| && s.files[s.blobs[id].file].path == s.blobs[id].path)
  }

  lemma BeginNamed(s: State, id: string, path: string, disk: bool)
    requires Named(s)
    ensures Named(OnBegin(s, id, path, disk))
  {
  }

  lemma ChunkNamed(s: State, id: string, payload: Bytes, disk: bool)
    requires Named(s)
    ensures Named(OnChunk(s, id, payload, disk))
  {
    hide WriteAt;
  }

  lemma StepNamed(s: State, ev: Event, hash: Bytes -> string)
    requires Named(s)
    ensures Named(Step(s, ev, hash))
  {
    hide OnBegin, OnChunk;
    match ev
    case Got(Begin(id, path, _), disk) => BeginNamed(s, id, path, disk);
    case Got(Chunk(id, _, payload), disk) => ChunkNamed(s, id, payload, disk);
    case Got(End(_, _, _), _) =>
    case Take(_) =>
  }

  lemma {:induction false} RunNamed(evs: seq<Event>, hash: Bytes -> string)
    ensures Named(Run(evs, hash))
  {
    hide Step;
    if evs != [] {
      hide Named;
      RunNamed(evs[..|evs| - 1], hash);
      StepNamed(Run(evs[..|evs| - 1], hash), evs[|evs| - 1], hash);
    }
  }

  /** The transfer's name still leads to its file, which holds what was received. */
  predicate Intact(s: State, id: string)
    requires id in s.blobs
  {
    var e := s.blobs[id];
    e.path in s.dir && s.dir[e.path] == e.file && Content(s, e.path) == Some(e.hashed) && e.offset == |e.hashed|
  }

  /** What another transfer may not do to it: begin under the same name once something
      was received, write other bytes into the same file, or fail under the name. */
  predicate Spoils(s: State, ev: Event, id: string, hash: Bytes -> string)
    requires id in s.blobs
  {
    var e := s.blobs[id];
    match ev
    case Got(Begin(x, path, _), disk) => x != id && disk && path == e.path && e.hashed != []
    case Got(Chunk(x, _, payload), disk) =>
      && x != id && x in s.blobs && s.blobs[x].file == e.file && disk && !s.blobs[x].failed && !s.blobs[x].closed
      && payload != [] && !(s.blobs[x].offset + |payload| <= |e.hashed|
                            && e.hashed[s.blobs[x].offset..s.blobs[x].offset + |payload|] == payload)
    case Got(End(x, ok, sum), _) =>
      x != id && x in s.blobs && s.blobs[x].path == e.path && Rejected(s.blobs[x], ok, sum, hash)
    case Take(_) => false
  }

  /** Exactly that harms a transfer that is intact. */
  lemma SpoiledExactly(s: State, ev: Event, id: string, hash: Bytes -> string)
    requires Named(s) && id in s.blobs && Intact(s, id) && IdOf(ev) != id
    ensures id in Step(s, ev, hash).blobs
    ensures Intact(Step(s, ev, hash), id) <==> !Spoils(s, ev, id, hash)
  {
    var e := s.blobs[id];
    match ev
    case Got(Begin(_, _, _), _) => hide WriteAt;
    case Got(Chunk(x, _, payload), disk) =>
      if x in s.blobs {
        ChunkSpoils(s, x, payload, disk, id);
      }
      hide OnChunk;
    case Got(End(_, _, _), _) => hide WriteAt;
    case Take(_) =>
  }

  lemma ChunkSpoils(s: State, x: string, payload: Bytes, disk: bool, id: string)
    requires Named(s) && id in s.blobs && x in s.blobs && Intact(s, id) && x != id
    ensures var s', b, e := OnChunk(s, x, payload, disk), s.blobs[x], s.blobs[id];
            && id in s'.blobs && s'.blobs[id] == e
            && (Intact(s', id) <==>
                  b.file != e.file || !disk || b.failed || b.closed || WriteAt(e.hashed, b.offset, payload) == e.hashed)
            && (payload == [] ==> WriteAt(e.hashed, b.offset, payload) == e.hashed)
            && (payload != [] ==>
                  (WriteAt(e.hashed, b.offset, payload) == e.hashed
                   <==> b.offset + |payload| <= |e.hashed| && e.hashed[b.offset..b.offset + |payload|] == payload))
  {
    if payload == [] {
      assert WriteAt(s.blobs[id].hashed, s.blobs[x].offset, payload) == s.blobs[id].hashed;
    } else {
      WriteSame(s.blobs[id].hashed, s.blobs[x].offset, payload);
    }
    hide WriteAt;
  }

  /** A write changes nothing exactly if its bytes are there. */
  lemma WriteSame(content: Bytes, offset: nat, bytes: Bytes)
    requires bytes != []
    ensures WriteAt(content, offset, bytes) == content
            <==> offset + |bytes| <= |content| && content[offset..offset + |bytes|] == bytes
  {
    var now := WriteAt(content, offset, bytes);
    if offset <= |content| {
      assert now[offset..offset + |bytes|] == bytes;
      if offset + |bytes| <= |content| && content[offset..offset + |bytes|] == bytes {
        assert content == content[..offset] + content[offset..offset + |bytes|] + content[offset + |bytes|..];
        assert offset + |bytes| == |content| ==> content[offset + |bytes|..] == [];
      }
    }
  }

  /** Its own frames do not harm it. */
  lemma OwnKeeps(s: State, ev: Event, id: string, hash: Bytes -> string)
    requires Named(s) && IdOf(ev) == id && (id in s.blobs && !s.blobs[id].failed ==> Intact(s, id))
    ensures var s' := Step(s, ev, hash); id in s'.blobs && !s'.blobs[id].failed ==> Intact(s', id)
  {
    if ev.Got? && ev.frame.Chunk? && id in s.blobs {
      var content := s.blobs[id].hashed;
      assert WriteAt(content, |content|, ev.frame.payload) == content + ev.frame.payload;
    }
    hide WriteAt;
  }

  /** While the transfer lasts, from its beginning to its claim, nothing spoils it. */
  ghost predicate Unspoiled(evs: seq<Event>, id: string, hash: Bytes -> string) {
    evs == [] ||
    var front, ev := evs[..|evs| - 1], evs[|evs| - 1];
    Unspoiled(front, id, hash) && (id in Run(front, hash).blobs ==> !Spoils(Run(front, hash), ev, id, hash))
  }

  lemma {:induction false} RunIntact(evs: seq<Event>, id: string, hash: Bytes -> string)
    requires Unspoiled(evs, id, hash)
    ensures var s := Run(evs, hash); id in s.blobs && !s.blobs[id].failed ==> Intact(s, id)
  {
    hide Step, Intact, Spoils;
    if evs != [] {
      var front, ev := evs[..|evs| - 1], evs[|evs| - 1];
      var s := Run(front, hash);
      RunIntact(front, id, hash);
      RunNamed(front, hash);
      if IdOf(ev) == id {
        OwnKeeps(s, ev, id, hash);
      } else {
        OthersLeaveEntry(s, ev, hash, id);
        if id in s.blobs && !s.blobs[id].failed {
          SpoiledExactly(s, ev, id, hash);
        }
      }
    }
  }

  /** Another transfer's frame that begins, writes or ends under the name. */
  predicate Touches(s: State, ev: Event, path: string) {
    match ev
    case Got(Begin(_, p, _), _) => p == path
    case Got(Chunk(x, _, _), _) => x in s.blobs && s.blobs[x].path == path
    case Got(End(x, _, _), _) => x in s.blobs && s.blobs[x].path == path
    case Take(_) => false
  }

  ghost predicate Private(evs: seq<Event>, id: string, hash: Bytes -> string) {
    evs == [] ||
    var front, ev := evs[..|evs| - 1], evs[|evs| - 1];
    var s := Run(front, hash);
    Private(front, id, hash) && (id in s.blobs && IdOf(ev) != id ==> !Touches(s, ev, s.blobs[id].path))
  }

  /** So it is enough that nobody else uses the name meanwhile; before the transfer
      began and after it was claimed, others may. */
  lemma {:induction false} PrivateIsUnspoiled(evs: seq<Event>, id: string, hash: Bytes -> string)
    requires Private(evs, id, hash)
    ensures Unspoiled(evs, id, hash)
  {
    hide Step;
    if evs != [] {
      PrivateIsUnspoiled(evs[..|evs| - 1], id, hash);
      RunNamed(evs[..|evs| - 1], hash);
    }
  }

  // ------------------------------------------------------------------
  // What a turn is handed
  // ------------------------------------------------------------------

  /** A turn is handed a file only after the sender vouched for what was received for
      that transfer, whatever else was going on; and the file holds exactly that if
      nothing spoiled it. */
  lemma HandedOverIntact(evs: seq<Event>, id: string, hash: Bytes -> string)
    requires Claimed(Run(evs, hash), id).Some?
    ensures exists ev :: ev in evs && Vouched(ev, id, Received(evs, id), hash)
    ensures Unspoiled(evs, id, hash) ==> Claimed(Run(evs, hash), id) == Some(Received(evs, id))
  {
    RunSound(evs, id, hash);
    if Unspoiled(evs, id, hash) {
      RunIntact(evs, id, hash);
    }
    hide Run, Received, Vouched, Unspoiled;
    var i :| 0 <= i < |evs| && Vouched(evs[i], id, Received(evs, id), hash);
    assert evs[i] in evs;
  }

  /** Since the transfer began, a chunk of it could not be written, or its end said that it
      failed or named another checksum than that of what was received. */
  predicate Refused(evs: seq<Event>, id: string, hash: Bytes -> string) {
    evs != [] &&
    var front := evs[..|evs| - 1];
    match evs[|evs| - 1]
    case Got(Begin(x, _, _), true) => x != id && Refused(front, id, hash)
    case Got(Chunk(x, _, _), false) => x == id || Refused(front, id, hash)
    case Got(End(x, ok, sum), _) =>
      (x == id && (!ok || (sum != "" && sum != hash(Received(front, id))))) || Refused(front, id, hash)
    case _ => Refused(front, id, hash)
  }

  /** Then it is never handed over, whatever the sender says of it afterwards. */
  lemma {:induction false} RefusedIsNotHandedOver(evs: seq<Event>, id: string, hash: Bytes -> string)
    requires Refused(evs, id, hash)
    ensures var s := Run(evs, hash); Claimed(s, id).None? && (id in s.blobs ==> s.blobs[id].failed)
  {
    var front, ev := evs[..|evs| - 1], evs[|evs| - 1];
    if Refused(front, id, hash) {
      RefusedIsNotHandedOver(front, id, hash);
    }
    RunSound(front, id, hash);
    hide Run;
    RefusedStep(Run(front, hash), ev, id, hash);
    RunNext(evs, hash);
  }

  lemma RunNext(evs: seq<Event>, hash: Bytes -> string)
    requires evs != []
    ensures Run(evs, hash) == Step(Run(evs[..|evs| - 1], hash), evs[|evs| - 1], hash)
  {
    hide Step;
  }

  lemma RefusedStep(s: State, ev: Event, id: string, hash: Bytes -> string)
    requires (ev.Got? && ev.frame.Chunk? && !ev.disk && ev.frame.id == id)
             || (ev.Got? && ev.frame.End? && ev.frame.id == id && id in s.blobs && Rejected(s.blobs[id], ev.frame.ok, ev.frame.sum, hash))
             || ((id in s.blobs ==> s.blobs[id].failed) && !(ev.Got? && ev.frame.Begin? && ev.disk && ev.frame.id == id))
    ensures var s' := Step(s, ev, hash); id in s'.blobs ==> s'.blobs[id].failed
  {
    hide WriteAt;
  }

  /** The transfers that write into the file of this name. */
  predicate Writes(s: State, id: string, path: string) {
    id in s.blobs && !s.blobs[id].failed && !s.blobs[id].closed && path in s.dir && s.blobs[id].file == s.dir[path]
  }

  /** All that was written under a name, laid over each other as it came: each write
      at the place its own transfer had reached. */
  function Overlaid(evs: seq<Event>, path: string, hash: Bytes -> string): Option<Bytes> {
    if evs == [] then None else
    var front := evs[..|evs| - 1];
    var was, s := Overlaid(front, path, hash), Run(front, hash);
    match evs[|evs| - 1]
    case Got(Begin(_, p, _), true) => if p == path then Some([]) else was
    case Got(Chunk(x, _, payload), true) =>
      if was.Some? && Writes(s, x, path) then Some(WriteAt(was.value, |Received(front, x)|, payload)) else was
    case Got(End(x, ok, sum), _) =>
      if x in s.blobs && s.blobs[x].path == path && Rejected(s.blobs[x], ok, sum, hash) then None else was
    case _ => was
  }

  /** That is what the file holds, and so, spoiled or not, what a turn is handed. */
  lemma {:induction false} HandedOver(evs: seq<Event>, path: string, hash: Bytes -> string)
    ensures Content(Run(evs, hash), path) == Overlaid(evs, path, hash)
    ensures forall id | id in Run(evs, hash).blobs && Claimed(Run(evs, hash), id).Some? && Run(evs, hash).blobs[id].path == path ::
              Claimed(Run(evs, hash), id) == Overlaid(evs, path, hash)
  {
    hide WriteAt;
    if evs != [] {
      var front, ev := evs[..|evs| - 1], evs[|evs| - 1];
      HandedOver(front, path, hash);
      RunNamed(front, hash);
      RunSound(front, IdOf(ev), hash);
      ContentNext(Run(front, hash), ev, path, hash);
      hide Run;
    }
  }

  /** The content under a name after one event. */
  lemma ContentNext(s: State, ev: Event, path: string, hash: Bytes -> string)
    requires Named(s)
    ensures var was, now := Content(s, path), Content(Step(s, ev, hash), path);
            match ev
            case Got(Begin(_, p, _), true) => now == if p == path then Some([]) else was
            case Got(Chunk(x, _, payload), true) =>
              now == if was.Some? && Writes(s, x, path) then Some(WriteAt(was.value, s.blobs[x].offset, payload)) else was
            case Got(End(x, ok, sum), _) =>
              now == if x in s.blobs && s.blobs[x].path == path && Rejected(s.blobs[x], ok, sum, hash) then None else was
            case _ => now == was
  {
    hide WriteAt;
  }

  function Delivery(frames: seq<Frame>): seq<Event> {
    if frames == [] then [] else Delivery(frames[..|frames| - 1]) + [Got(frames[|frames| - 1], true)]
  }

  /** A transfer as the relay sends it arrives, under any interleaving with others
      that does not spoil it. */
  lemma RelayArrives(evs: seq<Event>, id: string, path: string, size: nat, chunks: seq<Frame>, hash: Bytes -> string)
    requires Unspoiled(evs, id, hash) && Numbered(chunks, id)
    requires Only(evs, id) == [Got(Begin(id, path, size), true)] + Delivery(chunks)
                              + [Got(End(id, true, hash(Payloads(chunks))), true)]
    ensures Claimed(Run(evs, hash), id) == Some(Payloads(chunks))
  {
    hide Run, Step, Delivery, Only, Payloads, Unspoiled, Numbered, Intact, View;
    var before := [Got(Begin(id, path, size), true)] + Delivery(chunks);
    AsIfAlone(evs, hash, id);
    RunIntact(evs, id, hash);
    ChunksArrive(id, path, size, chunks, hash);
    RunSnoc(before, Got(End(id, true, hash(Payloads(chunks))), true), hash);
    EndArrives(Run(before, hash), Run(evs, hash), id, path, Payloads(chunks), hash);
  }

  lemma EndArrives(s: State, u: State, id: string, path: string, content: Bytes, hash: Bytes -> string)
    requires View(s, id) == Some(Partial(path, content))
    requires View(u, id) == View(Step(s, Got(End(id, true, hash(content)), true), hash), id)
    requires id in u.blobs && !u.blobs[id].failed ==> Intact(u, id)
    ensures Claimed(u, id) == Some(content)
  {
    hide WriteAt;
  }

  lemma {:induction false} ChunksArrive(id: string, path: string, size: nat, chunks: seq<Frame>, hash: Bytes -> string)
    requires Numbered(chunks, id)
    ensures View(Run([Got(Begin(id, path, size), true)] + Delivery(chunks), hash), id)
         == Some(Partial(path, Payloads(chunks)))
  {
    if chunks == [] {
      TransferBegins(id, path, size, hash);
    } else {
      hide Run, Step, Payloads, View, Delivery, Numbered;
      var front, c := chunks[..|chunks| - 1], chunks[|chunks| - 1];
      LastChunk(chunks, id);
      ChunksArrive(id, path, size, front, hash);
      AddPayload(front, c);
      var before := [Got(Begin(id, path, size), true)] + Delivery(front);
      assert [Got(Begin(id, path, size), true)] + Delivery(chunks) == before + [Got(c, true)];
      RunSnoc(before, Got(c, true), hash);
      NextArrives(Run(before, hash), path, Payloads(front), c, hash);
    }
  }

  lemma LastChunk(chunks: seq<Frame>, id: string)
    requires Numbered(chunks, id) && chunks != []
    ensures var front, c := chunks[..|chunks| - 1], chunks[|chunks| - 1];
            && c.Chunk? && c.id == id && front + [c] == chunks && Numbered(front, id)
            && Delivery(chunks) == Delivery(front) + [Got(c, true)]
  {
  }

  lemma TransferBegins(id: string, path: string, size: nat, hash: Bytes -> string)
    ensures View(Run([Got(Begin(id, path, size), true)] + Delivery([]), hash), id) == Some(Partial(path, Payloads([])))
  {
    assert [Got(Begin(id, path, size), true)] + Delivery([]) == [] + [Got(Begin(id, path, size), true)];
    RunSnoc([], Got(Begin(id, path, size), true), hash);
  }

  lemma RunSnoc(evs: seq<Event>, ev: Event, hash: Bytes -> string)
    ensures Run(evs + [ev], hash) == Step(Run(evs, hash), ev, hash)
  {
    hide Step;
    assert (evs + [ev])[..|evs|] == evs;
  }

  /** An open transfer after so many bytes. */
  function Partial(path: string, content: Bytes): Entry {
    Entry(path, 0, |content|, content, false, false, false)
  }

  lemma NextArrives(s: State, path: string, content: Bytes, c: Frame, hash: Bytes -> string)
    requires c.Chunk? && View(s, c.id) == Some(Partial(path, content))
    ensures View(Step(s, Got(c, true), hash), c.id) == Some(Partial(path, content + c.payload))
  {
    hide WriteAt;
  }

  // ------------------------------------------------------------------
  // Two transfers to one destination
  // ------------------------------------------------------------------

  function Crossed(hash: Bytes -> string, one: Bytes, two: Bytes): seq<Event> {
    [Got(Begin("a", "p", |one|), true), Got(Begin("b", "p", |two|), true), Got(Chunk("a", 0, one), true),
     Got(Chunk("b", 0, two), true), Got(End("a", true, hash(one)), true), Got(End("b", true, hash(two)), true)]
  }

  lemma SixSteps(evs: seq<Event>, hash: Bytes -> string)
    requires |evs| == 6
    ensures var s2 := Step(Step(EMPTY, evs[0], hash), evs[1], hash);
            Run(evs, hash) == Step(Step(Step(Step(s2, evs[2], hash), evs[3], hash), evs[4], hash), evs[5], hash)
  {
    hide Step;
    assert evs[..5][..4] == evs[..4] && evs[..4][..3] == evs[..3] && evs[..3][..2] == evs[..2] && evs[..2][..1] == evs[..1];
    assert Run(evs[..1], hash) == Step(EMPTY, evs[0], hash);
    assert Run(evs[..3], hash) == Step(Run(evs[..2], hash), evs[2], hash);
    assert Run(evs[..5], hash) == Step(Run(evs[..4], hash), evs[4], hash);
  }

  /** A transfer of "p" after so many bytes. */
  function Part(bytes: Bytes, done: bool): Entry {
    Entry("p", 0, |bytes|, bytes, false, done, done)
  }

  function Both(a: Entry, b: Entry, content: Bytes): State {
    State(map["a" := a, "b" := b], map["p" := 0], [File("p", content)])
  }

  lemma BothBegin(size: nat, other: nat, hash: Bytes -> string)
    ensures Step(Step(EMPTY, Got(Begin("a", "p", size), true), hash), Got(Begin("b", "p", other), true), hash)
         == Both(Part([], false), Part([], false), [])
  {
    var none: seq<File> := [];
    assert (none + [File("p", [])])[0 := File("p", [])] == [File("p", [])];
  }

  lemma BothWrite(one: Bytes, two: Bytes, hash: Bytes -> string)
    ensures var s := Step(Both(Part([], false), Part([], false), []), Got(Chunk("a", 0, one), true), hash);
            Step(s, Got(Chunk("b", 0, two), true), hash) == Both(Part(one, false), Part(two, false), WriteAt(one, 0, two))
  {
    assert WriteAt([], 0, one) == one && [] + one == one && [] + two == two;
    hide WriteAt;
    assert Step(Both(Part([], false), Part([], false), []), Got(Chunk("a", 0, one), true), hash)
        == Both(Part(one, false), Part([], false), one);
  }

  lemma BothEnd(one: Bytes, two: Bytes, content: Bytes, hash: Bytes -> string)
    ensures var s := Step(Both(Part(one, false), Part(two, false), content), Got(End("a", true, hash(one)), true), hash);
            Step(s, Got(End("b", true, hash(two)), true), hash) == Both(Part(one, true), Part(two, true), content)
  {
    assert Step(Both(Part(one, false), Part(two, false), content), Got(End("a", true, hash(one)), true), hash)
        == Both(Part(one, true), Part(two, false), content);
  }

  lemma CrossedRun(hash: Bytes -> string, one: Bytes, two: Bytes)
    ensures Run(Crossed(hash, one, two), hash) == Both(Part(one, true), Part(two, true), WriteAt(one, 0, two))
  {
    hide Run, WriteAt, Step, Both, Part;
    SixSteps(Crossed(hash, one, two), hash);
    BothBegin(|one|, |two|, hash);
    BothWrite(one, two, hash);
    BothEnd(one, two, WriteAt(one, 0, two), hash);
  }

  /** Two files of one name sent to one thread at the same time share a file. Both
      transfers are vouched for and both turns are handed the second laid over the
      first: the one is right exactly if the second begins the first, the other
      exactly if the first is no longer. */
  lemma SamePathClobbers(hash: Bytes -> string, one: Bytes, two: Bytes)
    ensures var s := Run(Crossed(hash, one, two), hash);
            var content := two + if |two| < |one| then one[|two|..] else [];
            && Claimed(s, "a") == Some(content) && Claimed(s, "b") == Some(content)
            && (content == one <==> two <= one) && (content == two <==> |one| <= |two|)
  {
    CrossedRun(hash, one, two);
    hide Run, Crossed;
    assert one[..0] == [] && [] + two == two;
    if two <= one {
      assert one == one[..|two|] + one[|two|..];
    }
  }

  // ------------------------------------------------------------------
  // The runner's handlers, in place
  // ------------------------------------------------------------------

  class Uploads {
    const hash: Bytes -> string
    var blobs: map<string, Entry>
    var dir: map<string, nat>
    var files: seq<File>

    constructor (hash: Bytes -> string)
      ensures this.hash == hash && Abs() == EMPTY
    {
      this.hash := hash;
      blobs, dir, files := map[], map[], [];
    }

    ghost function Abs(): State
      reads this
    {
      State(blobs, dir, files)
    }

    method BlobBegins(id: string, path: string, disk: bool)
      modifies this
      ensures Abs() == OnBegin(old(Abs()), id, path, disk)
    {
      if !disk {
        return;
      }
      var n := |files|;
      if path in dir && dir[path] < |files| {
        n := dir[path];
        files := files[n := File(path, [])];
      } else {
        dir := dir[path := n];
        files := files + [File(path, [])];
      }
      blobs := blobs[id := Entry(path, n, 0, [], false, false, false)];
    }

    method ChunkArrives(id: string, payload: Bytes, disk: bool)
      modifies this
      ensures Abs() == OnChunk(old(Abs()), id, payload, disk)
    {
      hide WriteAt;
      if id !in blobs || blobs[id].failed {
        return;
      }
      var b := blobs[id];
      if !disk || b.closed {
        blobs := blobs[id := b.(failed := true)];
        return;
      }
      if b.file < |files| {
        files := files[b.file := File(files[b.file].path, WriteAt(files[b.file].content, b.offset, payload))];
      }
      b := b.(offset := b.offset + |payload|);
      b := b.(hashed := b.hashed + payload);
      blobs := blobs[id := b];
    }

    method BlobEnds(id: string, ok: bool, sum: string)
      modifies this
      ensures Abs() == OnEnd(old(Abs()), id, ok, sum, hash)
    {
      if id !in blobs {
        return;
      }
      var b := blobs[id].(closed := true);
      if !ok || b.failed {
        dir := dir - {b.path};
        blobs := blobs - {id};
        return;
      }
      if sum != "" {
        var got := hash(b.hashed);
        if got != sum {
          dir := dir - {b.path};
          blobs := blobs - {id};
          return;
        }
      }
      blobs := blobs[id := b.(complete := true)];
    }

    method TakeBlob(id: string) returns (content: Option<Bytes>)
      modifies this
      ensures content == Claimed(old(Abs()), id) && Abs() == OnTake(old(Abs()), id)
    {
      if id !in blobs {
        return None;
      }
      var b := blobs[id];
      if b.failed || !b.complete {
        return None;
      }
      blobs := blobs - {id};
      if b.path in dir && dir[b.path] < |files| {
        return Some(files[dir[b.path]].content);
      }
      return None;
    }
  }
}
