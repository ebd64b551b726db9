/**
 The buffer descriptor list of the firmware image. The list's layout is that of
 sections 3.6.2 and 3.6.3 of the Intel High Definition Audio Specification; here
 an entry is an address, a length and the completion flag.
 */
module BufferList {

  const PAGE: nat := 4096
  const MAX_ENTRIES: nat := 256

  datatype Entry = Entry(addr: nat, size: nat, ioc: bool)

  /** What the memory descriptor says of a buffer offset: where it is, how far it is contiguous. */
  datatype Segment = Segment(addr: nat, length: nat)

  const EMPTY: Entry := Entry(0, 0, false)

  function EntryCount(payload: nat): nat {
    var n := (payload + PAGE - 1) / PAGE;
    if n > MAX_ENTRIES then MAX_ENTRIES else n
  }

  /** Bytes a list describes. */
  function Total(entries: seq<Entry>): nat
    decreases |entries|
  {
    if entries == [] then 0 else Total(entries[..|entries| - 1]) + entries[|entries| - 1].size
  }

  function Min(a: nat, b: nat): nat {
    if a < b then a else b
  }

  /** The entry for what lies `off` bytes into an image with `left` bytes to go. */
  function EntryAt(segments: nat -> Segment, off: nat, left: nat): Entry {
    var chunk := Min(Min(left, PAGE), segments(off).length);
    Entry(segments(off).addr, chunk, left <= chunk)
  }

  /** Entry after entry, the list walks through the image without gap or overlap. */
  predicate Walks(entries: seq<Entry>, segments: nat -> Segment, payload: nat)
    decreases |entries|
  {
    entries == [] ||
    (var front := entries[..|entries| - 1];
     Walks(front, segments, payload) && Total(front) < payload &&
     entries[|entries| - 1] == EntryAt(segments, Total(front), payload - Total(front)))
  }

  /** One physical run of `payload` bytes. */
  ghost predicate Contiguous(segments: nat -> Segment, base: nat, payload: nat) {
    forall off: nat :: off <= payload ==> segments(off) == Segment(base + off, payload - off)
  }

  lemma WalkExtends(front: seq<Entry>, segments: nat -> Segment, payload: nat)
    requires Walks(front, segments, payload) && Total(front) < payload
    ensures var e := EntryAt(segments, Total(front), payload - Total(front));
            Walks(front + [e], segments, payload) && Total(front + [e]) == Total(front) + e.size
  {
    var e := EntryAt(segments, Total(front), payload - Total(front));
    assert (front + [e])[..|front|] == front;
  }

  /** Fills the list in place; what it leaves over, the list does not describe. */
  method Fill(list: array<Entry>, payload: nat, segments: nat -> Segment) returns (used: nat, left: nat)
    requires list.Length >= EntryCount(payload)
    modifies list
    ensures used <= EntryCount(payload) && (used == EntryCount(payload) || left == 0)
    ensures Walks(list[..used], segments, payload) && Total(list[..used]) + left == payload
    ensures forall k :: used <= k < list.Length ==> list[k] == EMPTY
  {
    Clear(list);
    ghost var walked: seq<Entry> := [];
    var off := 0;
    used, left := 0, payload;
    while used < EntryCount(payload) && left > 0
      invariant used <= EntryCount(payload)
      invariant off + left == payload && list[..used] == walked && Total(walked) == off
      invariant Walks(walked, segments, payload)
      invariant forall k :: used <= k < list.Length ==> list[k] == EMPTY
    {
      var e := NextEntry(segments, off, left);
      list[used] := e;
      WalkExtends(walked, segments, payload);
      walked := walked + [e];
      left, off, used := left - e.size, off + e.size, used + 1;
    }
  }

  method NextEntry(segments: nat -> Segment, off: nat, left: nat) returns (e: Entry)
    ensures e == EntryAt(segments, off, left) && e.size <= left
  {
    var s := segments(off);
    var chunk := if left > PAGE then PAGE else left;
    if s.length < chunk {
      chunk := s.length;
    }
    e := Entry(s.addr, chunk, left <= chunk);
  }

  method Clear(list: array<Entry>)
    modifies list
    ensures forall k :: 0 <= k < list.Length ==> list[k] == EMPTY
  {
    forall k | 0 <= k < list.Length {
      list[k] := EMPTY;
    }
  }

  /** In a contiguous image entry k is page k, and only the entry that ends the
      image asks for a completion. */
  lemma {:induction false} ContiguousWalk(entries: seq<Entry>, segments: nat -> Segment, base: nat, payload: nat)
    requires Walks(entries, segments, payload) && Contiguous(segments, base, payload)
    ensures Total(entries) == Min(|entries| * PAGE, payload)
    ensures forall k :: 0 <= k < |entries| ==>
              entries[k].addr == base + k * PAGE && (entries[k].ioc <==> payload <= (k + 1) * PAGE)
    decreases |entries|
  {
    if entries != [] {
      var front := entries[..|entries| - 1];
      ContiguousWalk(front, segments, base, payload);
      forall k | 0 <= k < |entries|
        ensures entries[k].addr == base + k * PAGE && (entries[k].ioc <==> payload <= (k + 1) * PAGE)
      {
        if k < |front| {
          assert entries[k] == front[k];
        }
      }
    }
  }

  /** The list describes the whole of a contiguous image if and only if the image
      fits 256 pages; the stream is told its full length either way. */
  lemma ListIsCapped(entries: seq<Entry>, left: nat, segments: nat -> Segment, base: nat, payload: nat)
    requires Walks(entries, segments, payload) && Contiguous(segments, base, payload)
    requires |entries| <= EntryCount(payload) && (|entries| == EntryCount(payload) || left == 0)
    requires Total(entries) + left == payload
    ensures left == 0 <==> payload <= MAX_ENTRIES * PAGE
    ensures |entries| == EntryCount(payload)
  {
    ContiguousWalk(entries, segments, base, payload);
  }

  // ---------- images in pieces ----------

  predicate SameInside(segments: nat -> Segment, off: nat, d: nat) {
    d < segments(off).length ==> segments(off + d).addr == segments(off).addr + d
  }

  /** The memory is what it is wherever one asks: a segment looks the same from inside. */
  ghost predicate Consistent(segments: nat -> Segment) {
    forall off: nat, d: nat :: SameInside(segments, off, d)
  }

  /** Entry k with what lies before it. */
  lemma {:induction false} EntriesAreWalked(entries: seq<Entry>, segments: nat -> Segment, payload: nat, k: nat)
    requires Walks(entries, segments, payload) && k < |entries|
    ensures var off := Total(entries[..k]);
            off < payload && entries[k].addr == segments(off).addr && entries[k].size <= segments(off).length &&
            entries[k].size <= 4096 && off + entries[k].size <= payload &&
            (entries[k].ioc <==> off + entries[k].size == payload)
    decreases |entries|
  {
    var front := entries[..|entries| - 1];
    if k < |front| {
      EntriesAreWalked(front, segments, payload, k);
      assert front[..k] == entries[..k] && front[k] == entries[k];
    } else {
      assert entries[..k] == front;
    }
  }

  /** Byte j of the image is entry k's, at the entry's address and its distance into it. */
  predicate Describes(entries: seq<Entry>, k: nat, j: nat, addr: nat) {
    k < |entries| && Total(entries[..k]) <= j < Total(entries[..k]) + entries[k].size &&
    addr == entries[k].addr + (j - Total(entries[..k]))
  }

  lemma FrontDescribes(entries: seq<Entry>, k: nat, j: nat, addr: nat)
    requires entries != [] && Describes(entries[..|entries| - 1], k, j, addr)
    ensures Describes(entries, k, j, addr)
  {
    var front := entries[..|entries| - 1];
    assert front[..k] == entries[..k] && front[k] == entries[k];
  }

  lemma LastDescribes(entries: seq<Entry>, segments: nat -> Segment, payload: nat, j: nat)
    requires Walks(entries, segments, payload) && Consistent(segments) && entries != []
    requires Total(entries[..|entries| - 1]) <= j < Total(entries)
    ensures Describes(entries, |entries| - 1, j, segments(j).addr)
  {
    var off := Total(entries[..|entries| - 1]);
    EntriesAreWalked(entries, segments, payload, |entries| - 1);
    assert SameInside(segments, off, j - off);
  }

  /** However the image lies in memory: the list describes each byte it reaches, at the
      byte's physical address, with no entry over a page or across a segment's end. */
  lemma {:induction false} BytesAreDescribed(
    entries: seq<Entry>, segments: nat -> Segment, payload: nat, j: nat) returns (k: nat)
    requires Walks(entries, segments, payload) && Consistent(segments) && j < Total(entries)
    ensures Describes(entries, k, j, segments(j).addr)
    decreases |entries|
  {
    var front := entries[..|entries| - 1];
    if j < Total(front) {
      k := BytesAreDescribed(front, segments, payload, j);
      FrontDescribes(entries, k, j, segments(j).addr);
    } else {
      k := |entries| - 1;
      LastDescribes(entries, segments, payload, j);
    }
  }
}
