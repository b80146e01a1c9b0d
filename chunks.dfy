/** Reassembly of chunked WebSocket messages. The three WebSocket-driven indicators
    share the same `ProcessWebSocketMessage` code: a list of string slots, padded with
    nulls up to the chunk's index, completed when the number of non-null slots equals
    the announced total. */
module ChunkReassembly {
  import opened Snapshots

  /** The decoded header of one WebSocket frame. */
  datatype ChunkMessage = ChunkMessage(
    kind: Option<string>,
    chunkIndex: Option<int>,
    totalChunks: Option<int>,
    data: Option<string>)

  predicate IsChunk(m: ChunkMessage)
  {
    m.kind == Some("chunk")
  }

  const Int32Min: int := -0x8000_0000
  const Int32Max: int := 0x7FFF_FFFF

  /** The values `Convert.ToInt32` accepts without an `OverflowException`. */
  predicate IsInt32(x: int)
  {
    Int32Min <= x <= Int32Max
  }

  /** A chunk whose three fields can be read, whose index and total fit an `int`, and
      whose index is a usable list index. Any other chunk throws inside the `try`
      before the list is touched. */
  predicate Storable(m: ChunkMessage)
  {
    && IsChunk(m) && m.chunkIndex.Some? && m.totalChunks.Some? && m.data.Some?
    && IsInt32(m.chunkIndex.value) && IsInt32(m.totalChunks.value)
    && m.chunkIndex.value >= 0
  }

  /** `string.Join` renders a null element as the empty string. */
  function SlotText(s: Option<string>): string
  {
    if s.Some? then s.value else ""
  }

  /** `string.Join("", slots)`: the slot texts in index order. */
  function Join(slots: seq<Option<string>>): string
  {
    if slots == [] then "" else Join(slots[..|slots| - 1]) + SlotText(slots[|slots| - 1])
  }

  /** `slots.Count(chunk => chunk != null)`. */
  function Present(slots: seq<Option<string>>): (n: nat)
    ensures n <= |slots|
  {
    if slots == [] then 0
    else Present(slots[..|slots| - 1]) + (if slots[|slots| - 1].Some? then 1 else 0)
  }

  function Nulls(n: nat): (r: seq<Option<string>>)
    ensures |r| == n && forall j :: 0 <= j < n ==> r[j] == None
  {
    seq(n, _ => None)
  }

  /** The list after the padding loop: long enough to hold slot `index`, new slots null. */
  function Padded(slots: seq<Option<string>>, index: nat): (r: seq<Option<string>>)
    ensures |r| == if index < |slots| then |slots| else index + 1
    ensures forall j :: 0 <= j < |r| ==> r[j] == if j < |slots| then slots[j] else None
  {
    if index < |slots| then slots else slots + Nulls(index + 1 - |slots|)
  }

  /** The list after the chunk is stored at its index. */
  function Stored(slots: seq<Option<string>>, index: nat, d: string): (r: seq<Option<string>>)
    ensures |r| == if index < |slots| then |slots| else index + 1
    ensures r[index] == Some(d)
    ensures forall j :: 0 <= j < |r| && j != index ==> r[j] == if j < |slots| then slots[j] else None
  {
    Padded(slots, index)[index := Some(d)]
  }

  /** The buffer after one message, and the text passed on to `ProcessReassembledMessage`. */
  datatype Step = Step(slots: seq<Option<string>>, forwarded: Option<string>)

  function Deliver(slots: seq<Option<string>>, m: ChunkMessage, raw: string): Step
  {
    if !IsChunk(m) then Step(slots, Some(raw))
    else if !Storable(m) then Step(slots, None)
    else
      var s := Stored(slots, m.chunkIndex.value, m.data.value);
      if Present(s) == m.totalChunks.value then Step([], Some(Join(s))) else Step(s, None)
  }

  /** The `messageChunks` list of one indicator. */
  class ChunkBuffer {
    var slots: seq<Option<string>>

    constructor ()
      ensures slots == []
    {
      slots := [];
    }

    /** `ProcessWebSocketMessage` up to the call of `ProcessReassembledMessage`, whose
        argument is returned in `forwarded`. */
    method Receive(m: ChunkMessage, raw: string) returns (forwarded: Option<string>)
      modifies this
      ensures Step(slots, forwarded) == Deliver(old(slots), m, raw)
    {
      if !IsChunk(m) {
        return Some(raw);
      }
      if m.chunkIndex.None? || m.totalChunks.None? || m.data.None? {
        // data["chunkIndex"], data["totalChunks"] or data["data"] throws; the catch drops it
        return None;
      }
      if !IsInt32(m.chunkIndex.value) || !IsInt32(m.totalChunks.value) {
        // Convert.ToInt32 overflows; the catch drops the frame
        return None;
      }
      var chunkIndex := m.chunkIndex.value;
      var totalChunks := m.totalChunks.value;
      var chunkData := m.data.value;
      if chunkIndex < 0 {
        // no padding happens, and messageChunks[chunkIndex] throws
        return None;
      }
      ghost var before := slots;
      while |slots| <= chunkIndex
        invariant |before| <= |slots| <= if chunkIndex < |before| then |before| else chunkIndex + 1
        invariant slots == before + Nulls(|slots| - |before|)
      {
        slots := slots + [None];
      }
      assert slots == Padded(before, chunkIndex);
      slots := slots[chunkIndex := Some(chunkData)];
      if Present(slots) == totalChunks {
        var fullMessage := Join(slots);
        slots := [];
        return Some(fullMessage);
      }
      forwarded := None;
    }
  }

  // ---------------------------------------------------------------------------
  // Properties of the reassembly rule

  /** Storing into a null (or new) slot adds one to the count; overwriting a present
      slot leaves the count as it was. */
  lemma {:induction false} PresentAfterStore(slots: seq<Option<string>>, index: nat, d: string)
    ensures Present(Stored(slots, index, d))
         == Present(slots) + (if index < |slots| && slots[index].Some? then 0 else 1)
  {
    var r := Stored(slots, index, d);
    if index < |slots| {
      PresentUpdate(slots, index, Some(d));
    } else {
      var p := Padded(slots, index);
      PresentAppendNulls(slots, index + 1 - |slots|);
      assert p == slots + Nulls(index + 1 - |slots|);
      PresentUpdate(p, index, Some(d));
    }
  }

  lemma {:induction false} PresentUpdate(s: seq<Option<string>>, i: nat, v: Option<string>)
    requires i < |s|
    ensures Present(s[i := v]) == Present(s) - (if s[i].Some? then 1 else 0) + (if v.Some? then 1 else 0)
    decreases |s|
  {
    var t := s[i := v];
    var n := |s| - 1;
    assert t[..n] == if i < n then s[..n][i := v] else s[..n];
    if i < n {
      PresentUpdate(s[..n], i, v);
    }
  }

  lemma {:induction false} PresentAppendNulls(s: seq<Option<string>>, k: nat)
    ensures Present(s + Nulls(k)) == Present(s)
    decreases k
  {
    if k > 0 {
      assert (s + Nulls(k))[..|s| + k - 1] == s + Nulls(k - 1);
      PresentAppendNulls(s, k - 1);
    } else {
      assert s + Nulls(k) == s;
    }
  }

  /** The parts of one message, concatenated in index order. */
  function Concat(parts: seq<string>): string
  {
    if parts == [] then "" else Concat(parts[..|parts| - 1]) + parts[|parts| - 1]
  }

  /** A buffer holding every part at its own index joins to the whole message. */
  lemma {:induction false} JoinAllPresent(slots: seq<Option<string>>, parts: seq<string>)
    requires |slots| == |parts|
    requires forall j :: 0 <= j < |slots| ==> slots[j] == Some(parts[j])
    ensures Join(slots) == Concat(parts)
    decreases |slots|
  {
    if slots != [] {
      var n := |slots| - 1;
      JoinAllPresent(slots[..n], parts[..n]);
    }
  }

  /** One incoming WebSocket frame with its raw text. */
  datatype Incoming = Incoming(msg: ChunkMessage, raw: string)

  /** What a run of frames leaves in the buffer, and the texts it passed on, in order. */
  datatype Feed = Feed(slots: seq<Option<string>>, outputs: seq<string>)

  function Run(slots: seq<Option<string>>, frames: seq<Incoming>): Feed
  {
    if frames == [] then Feed(slots, [])
    else
      var f := Run(slots, frames[..|frames| - 1]);
      var last := frames[|frames| - 1];
      var st := Deliver(f.slots, last.msg, last.raw);
      Feed(st.slots, f.outputs + if st.forwarded.Some? then [st.forwarded.value] else [])
  }

  lemma RunSnoc(slots: seq<Option<string>>, frames: seq<Incoming>, last: Incoming)
    ensures Run(slots, frames + [last])
         == var f := Run(slots, frames);
            var st := Deliver(f.slots, last.msg, last.raw);
            Feed(st.slots, f.outputs + if st.forwarded.Some? then [st.forwarded.value] else [])
  {
    assert (frames + [last])[..|frames|] == frames;
  }

  /** `order` lists each index below `n` exactly once. */
  ghost predicate EachIndexOnce(order: seq<nat>, n: nat)
  {
    && |order| == n
    && (forall k :: 0 <= k < |order| ==> order[k] < n)
    && (forall j :: 0 <= j < n ==> j in order)
    && (forall a, b :: 0 <= a < b < |order| ==> order[a] != order[b])
  }

  /** The chunk frame that carries part `i` of a message split into `parts`. */
  function ChunkOf(parts: seq<string>, i: nat): ChunkMessage
    requires i < |parts|
  {
    ChunkMessage(Some("chunk"), Some(i), Some(|parts|), Some(parts[i]))
  }

  /** The frames carrying the chunks of `parts` in the order given by `order`. */
  function Frames(parts: seq<string>, order: seq<nat>): (r: seq<Incoming>)
    requires forall k :: 0 <= k < |order| ==> order[k] < |parts|
    ensures |r| == |order|
  {
    if order == [] then []
    else
      var i := order[|order| - 1];
      Frames(parts, order[..|order| - 1]) + [Incoming(ChunkOf(parts, i), "")]
  }

  /** What the buffer holds after the first `k` chunks of `order` have been stored:
      `k` present slots, each chunk at its own index, and nothing else. */
  ghost predicate HoldsFirst(slots: seq<Option<string>>, parts: seq<string>, order: seq<nat>, k: nat)
    requires k <= |order|
    requires forall a :: 0 <= a < |order| ==> order[a] < |parts|
  {
    && Present(slots) == k
    && |slots| <= |parts|
    && (forall a :: 0 <= a < k ==> order[a] < |slots| && slots[order[a]] == Some(parts[order[a]]))
    && (forall j :: 0 <= j < |slots| && slots[j].Some? ==> j in order[..k])
  }

  lemma NotYetStored(order: seq<nat>, n: nat, k: nat)
    requires EachIndexOnce(order, n)
    requires k < |order|
    ensures order[k] !in order[..k]
  {
    var seen := order[..k];
    forall a | 0 <= a < |seen| ensures seen[a] != order[k] {
      assert seen[a] == order[a];
    }
  }

  /** Storing the next chunk of `order` keeps `HoldsFirst`, one chunk further on. */
  lemma StoreNext(slots: seq<Option<string>>, parts: seq<string>, order: seq<nat>, k: nat)
    requires EachIndexOnce(order, |parts|)
    requires k < |order|
    requires HoldsFirst(slots, parts, order, k)
    ensures HoldsFirst(Stored(slots, order[k], parts[order[k]]), parts, order, k + 1)
  {
    var i := order[k];
    NotYetStored(order, |parts|, k);
    PresentAfterStore(slots, i, parts[i]);
    var s := Stored(slots, i, parts[i]);
    assert order[..k + 1] == order[..k] + [i];
    forall a | 0 <= a < k + 1 ensures order[a] < |s| && s[order[a]] == Some(parts[order[a]]) {
      if a < k {
        assert order[a] != i;
      }
    }
  }

  lemma FramesSnoc(parts: seq<string>, order: seq<nat>, k: nat)
    requires forall a :: 0 <= a < |order| ==> order[a] < |parts|
    requires 0 < k <= |order|
    ensures Frames(parts, order[..k]) == Frames(parts, order[..k - 1]) + [Incoming(ChunkOf(parts, order[k - 1]), "")]
  {
    assert order[..k][..k - 1] == order[..k - 1];
  }

  /** One more chunk, not the last: the buffer grows by that chunk and nothing is passed on. */
  lemma DeliverNext(slots: seq<Option<string>>, parts: seq<string>, order: seq<nat>, k: nat)
    requires EachIndexOnce(order, |parts|) && |parts| <= Int32Max
    requires k + 1 < |parts|
    requires HoldsFirst(slots, parts, order, k)
    ensures Deliver(slots, ChunkOf(parts, order[k]), "").forwarded == None
    ensures HoldsFirst(Deliver(slots, ChunkOf(parts, order[k]), "").slots, parts, order, k + 1)
  {
    StoreNext(slots, parts, order, k);
  }

  /** Before the last chunk arrives, the buffer holds exactly the chunks received so
      far, each at its own index, and nothing has been passed on. */
  lemma {:induction false} PartialReassembly(parts: seq<string>, order: seq<nat>, k: nat)
    requires EachIndexOnce(order, |parts|) && |parts| <= Int32Max
    requires k < |parts|
    ensures Run([], Frames(parts, order[..k])).outputs == []
    ensures HoldsFirst(Run([], Frames(parts, order[..k])).slots, parts, order, k)
  {
    if k == 0 {
      assert order[..0] == [];
    } else {
      PartialReassembly(parts, order, k - 1);
      var fr := Frames(parts, order[..k - 1]);
      DeliverNext(Run([], fr).slots, parts, order, k - 1);
      FramesSnoc(parts, order, k);
      RunQuiet([], fr, Incoming(ChunkOf(parts, order[k - 1]), ""));
    }
  }

  /** A frame that passes nothing on, after frames that passed nothing on: the run
      still passes nothing on and ends where that frame leaves the buffer. */
  lemma RunQuiet(slots: seq<Option<string>>, frames: seq<Incoming>, last: Incoming)
    requires Run(slots, frames).outputs == []
    requires Deliver(Run(slots, frames).slots, last.msg, last.raw).forwarded == None
    ensures Run(slots, frames + [last]) == Feed(Deliver(Run(slots, frames).slots, last.msg, last.raw).slots, [])
  {
    RunSnoc(slots, frames, last);
  }

  /** Once the last chunk is stored, every part sits at its own index and nothing else
      is in the buffer. */
  lemma LastStoreFillsAll(slots: seq<Option<string>>, parts: seq<string>, order: seq<nat>)
    requires |parts| > 0
    requires EachIndexOnce(order, |parts|)
    requires HoldsFirst(slots, parts, order, |parts| - 1)
    ensures var s := Stored(slots, order[|parts| - 1], parts[order[|parts| - 1]]);
      && Present(s) == |parts|
      && |s| == |parts|
      && forall j :: 0 <= j < |parts| ==> s[j] == Some(parts[j])
  {
    var n := |parts|;
    var i := order[n - 1];
    StoreNext(slots, parts, order, n - 1);
    assert order[..n] == order;
    var s := Stored(slots, i, parts[i]);
    forall j | 0 <= j < n ensures j < |s| && s[j] == Some(parts[j]) {
      assert j in order;
      var a :| 0 <= a < n && order[a] == j;
    }
  }

  /** The last chunk completes the count: the whole message is passed on and the buffer emptied. */
  lemma DeliverLast(slots: seq<Option<string>>, parts: seq<string>, order: seq<nat>)
    requires 0 < |parts| <= Int32Max
    requires EachIndexOnce(order, |parts|)
    requires HoldsFirst(slots, parts, order, |parts| - 1)
    ensures Deliver(slots, ChunkOf(parts, order[|parts| - 1]), "") == Step([], Some(Concat(parts)))
  {
    var i := order[|parts| - 1];
    LastStoreFillsAll(slots, parts, order);
    JoinAllPresent(Stored(slots, i, parts[i]), parts);
  }

  /** Delivering the chunks of one message into an empty buffer, each index once and in
      any order, passes on exactly one text, the parts joined in index order, and
      leaves the buffer empty; the number of chunks must fit an `int`. */
  lemma {:induction false} ReassemblesInIndexOrder(parts: seq<string>, order: seq<nat>)
    requires 0 < |parts| <= Int32Max
    requires EachIndexOnce(order, |parts|)
    ensures Run([], Frames(parts, order)) == Feed([], [Concat(parts)])
  {
    var n := |parts|;
    var fr := Frames(parts, order[..n - 1]);
    var prev := Run([], fr);
    var m := ChunkOf(parts, order[n - 1]);
    assert Frames(parts, order) == fr + [Incoming(m, "")] by {
      FramesSnoc(parts, order, n);
      assert order[..n] == order;
    }
    assert prev.outputs == [] && Deliver(prev.slots, m, "") == Step([], Some(Concat(parts))) by {
      PartialReassembly(parts, order, n - 1);
      DeliverLast(prev.slots, parts, order);
    }
    RunSnoc([], fr, Incoming(m, ""));
  }

  /** A chunk whose index or total does not fit an `int` is dropped and leaves the
      buffer as it was. */
  lemma OverflowingChunkIsDropped(slots: seq<Option<string>>, m: ChunkMessage, raw: string)
    requires IsChunk(m) && m.chunkIndex.Some? && m.totalChunks.Some?
    requires !IsInt32(m.chunkIndex.value) || !IsInt32(m.totalChunks.value)
    ensures Deliver(slots, m, raw) == Step(slots, None)
  {
  }

  /** A frame that is not a chunk passes through with its own text and leaves the
      buffer as it was, even when a message is half assembled. */
  lemma NonChunkPassesThrough(slots: seq<Option<string>>, m: ChunkMessage, raw: string)
    requires !IsChunk(m)
    ensures Deliver(slots, m, raw) == Step(slots, Some(raw))
  {
  }
}
