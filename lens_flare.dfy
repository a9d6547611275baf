/** `LensFlareComponent` (src/scene/LensFlareComponent.cpp): a ring of
    occlusion queries with the frame timestamp at which each was last
    handed out for testing. Each frame hands out the next query of the ring
    for testing; the result that may be read is the one of the oldest slot,
    and only when it was tested exactly two frames ago. The global frame
    timestamp is a parameter. */
module LensFlare {
  import opened Common

  /** A `GlOcclusionQueryHandle`: not yet created, or created with a GL
      name. */
  datatype OcclusionQuery = Unset | Query(name: nat)

  /** What the GL device answers when a query is created. */
  datatype QueryCreation = Made(name: nat) | CreateFailed(code: Failure)

  /** The cursor and the timestamps of the ring: the state the two query
      lookups work on. */
  datatype Ring = Ring(cursor: nat, stamps: seq<u32>)
  {
    ghost predicate Valid()
    {
      cursor < |stamps|
    }
  }

  /** The ring after `getOcclusionQueryToTest` at frame `now`: the cursor
      moves one slot on, wrapping around, and that slot is stamped `now`. */
  function TestStep(r: Ring, now: u32): (r': Ring)
    requires r.Valid()
    ensures r'.Valid() && |r'.stamps| == |r.stamps|
    ensures r'.cursor == if r.cursor + 1 == |r.stamps| then 0 else r.cursor + 1
    ensures r'.stamps[r'.cursor] == now
    ensures forall i :: 0 <= i < |r.stamps| && i != r'.cursor ==> r'.stamps[i] == r.stamps[i]
  {
    var c := (r.cursor + 1) % |r.stamps|;
    Ring(c, r.stamps[c := now])
  }

  /** The slot `getOcclusionQueryToCheck` reads at frame `now`, the one
      after the cursor, when its result may be read: it was stamped, and
      exactly two frames before `now` (in 32-bit arithmetic). */
  function CheckSlot(r: Ring, now: u32): (slot: Option<nat>)
    requires r.Valid()
    ensures slot.Some? ==> slot.value < |r.stamps|
    ensures slot.Some? ==> slot.value == (r.cursor + 1) % |r.stamps|
    ensures slot.Some? <==>
      var s := r.stamps[(r.cursor + 1) % |r.stamps|];
      s != MaxU32 && AddU32(s, 2) == now
  {
    var idx := (r.cursor + 1) % |r.stamps|;
    if r.stamps[idx] == MaxU32 || r.stamps[idx] != SubU32(now, 2) then None
    else Some(idx)
  }

  /** With three queries and one test per frame, the query tested at frame
      `t` is the one that may be read at frame `t + 2`. */
  lemma ReadableTwoFramesLater(r: Ring, t: u32)
    requires r.Valid() && |r.stamps| == 3
    requires t != MaxU32
    ensures var r1 := TestStep(r, t);
      var r3 := TestStep(TestStep(r1, AddU32(t, 1)), AddU32(t, 2));
      CheckSlot(r3, AddU32(t, 2)) == Some(r1.cursor)
  {
    var r1 := TestStep(r, t);
    var r2 := TestStep(r1, AddU32(t, 1));
    var r3 := TestStep(r2, AddU32(t, 2));
    assert (r3.cursor + 1) % 3 == r1.cursor;
    assert r3.stamps[r1.cursor] == t;
  }

  /** The exception: a query tested at frame `MAX_U32` is stamped with the
      sentinel, so two frames later it is taken for never tested and its
      result is not read. */
  lemma TestedAtSentinelNotReadable(r: Ring)
    requires r.Valid() && |r.stamps| == 3
    ensures var r1 := TestStep(r, MaxU32);
      var r3 := TestStep(TestStep(r1, AddU32(MaxU32, 1)), AddU32(MaxU32, 2));
      CheckSlot(r3, AddU32(MaxU32, 2)) == None
  {
    var r1 := TestStep(r, MaxU32);
    var r2 := TestStep(r1, AddU32(MaxU32, 1));
    var r3 := TestStep(r2, AddU32(MaxU32, 2));
    assert (r3.cursor + 1) % 3 == r1.cursor;
    assert r3.stamps[r1.cursor] == MaxU32;
  }

  /** Before anything was tested, no query may be read: the unstamped
      sentinel is never taken for a frame. */
  lemma NothingReadableUnstamped(r: Ring, now: u32)
    requires r.Valid()
    requires forall i :: 0 <= i < |r.stamps| ==> r.stamps[i] == MaxU32
    ensures CheckSlot(r, now) == None
  {
  }

  /** The error `create` returns: the texture's, else the first failed
      query creation's, else none. */
  function CreateError(texLoad: Error, results: seq<QueryCreation>): (err: Error)
    ensures err == NoError <==> texLoad == NoError && forall i :: 0 <= i < |results| ==> results[i].Made?
    ensures texLoad != NoError ==> err == texLoad
  {
    if texLoad != NoError then texLoad
    else
      var k := FirstFailedCreation(results, 0);
      if k < |results| then Failed(results[k].code) else NoError
  }

  /** The first failed query creation from `from` on, or the count. */
  function FirstFailedCreation(results: seq<QueryCreation>, from: nat): (k: nat)
    requires from <= |results|
    ensures from <= k <= |results|
    ensures forall j :: from <= j < k ==> results[j].Made?
    ensures k < |results| ==> results[k].CreateFailed?
    decreases |results| - from
  {
    if from == |results| || results[from].CreateFailed? then from
    else FirstFailedCreation(results, from + 1)
  }

  /** How many queries `create` asks the device for: none when the
      texture failed, else up to and including the first failure. */
  function QueriesAttempted(texLoad: Error, results: seq<QueryCreation>): (n: nat)
    ensures n <= |results|
    ensures texLoad != NoError ==> n == 0
  {
    if texLoad != NoError then 0
    else
      var k := FirstFailedCreation(results, 0);
      if k < |results| then k + 1 else k
  }

  /** A query slot after the device answered `c`. */
  function QuerySlot(c: QueryCreation, old_: OcclusionQuery): OcclusionQuery
  {
    match c
    case Made(name) => Query(name)
    case CreateFailed(_) => old_
  }

  class LensFlareComponent {
    /** `m_queries`. */
    const queries: array<OcclusionQuery>
    /** `m_queryTestTimestamp`. */
    const timestamps: array<u32>
    /** `m_crntQueryIndex`. */
    var crntQueryIndex: nat

    ghost predicate Valid()
      reads this
    {
      queries.Length == timestamps.Length && crntQueryIndex < timestamps.Length
    }

    ghost function State(): (r: Ring)
      reads this, timestamps
      requires Valid()
      ensures r.Valid()
    {
      Ring(crntQueryIndex, timestamps[..])
    }

    /** A ring of `n` queries, none created, all timestamps the sentinel. */
    constructor (n: nat)
      requires n > 0
      ensures Valid() && fresh(queries) && fresh(timestamps)
      ensures queries.Length == n && crntQueryIndex == 0
      ensures forall i :: 0 <= i < n ==> queries[i] == Unset && timestamps[i] == MaxU32
    {
      queries := new OcclusionQuery[n](_ => Unset);
      timestamps := new u32[n](_ => MaxU32);
      crntQueryIndex := 0;
    }

    /** `create`: loads the texture (its outcome `texLoad` is given), then
        creates the queries in order while no error occurred; `results[i]`
        is what the device answers for query `i`. */
    method Create(texLoad: Error, results: seq<QueryCreation>) returns (err: Error)
      requires Valid()
      requires |results| == queries.Length
      modifies queries
      ensures err == CreateError(texLoad, results)
      ensures forall i :: 0 <= i < queries.Length ==>
        queries[i] == if i < QueriesAttempted(texLoad, results) then QuerySlot(results[i], old(queries[i]))
                      else old(queries[i])
    {
      err := texLoad;
      var i := 0;
      while i < queries.Length && err == NoError
        invariant 0 <= i <= queries.Length
        invariant err == NoError ==> texLoad == NoError && forall j :: 0 <= j < i ==> results[j].Made?
        invariant err != NoError ==>
          if texLoad != NoError then err == texLoad && i == 0
          else 0 < i && results[i - 1] == CreateFailed(err.code) && forall j :: 0 <= j < i - 1 ==> results[j].Made?
        invariant forall j :: 0 <= j < queries.Length ==>
          queries[j] == if j < i then QuerySlot(results[j], old(queries[j])) else old(queries[j])
      {
        match results[i] {
          case Made(name) =>
            queries[i] := Query(name);
          case CreateFailed(code) =>
            err := Failed(code);
        }
        i := i + 1;
      }
    }

    /** `getOcclusionQueryToTest` at frame `now`. */
    method GetOcclusionQueryToTest(now: u32) returns (q: OcclusionQuery)
      requires Valid()
      modifies this, timestamps
      ensures Valid()
      ensures State() == TestStep(old(State()), now)
      ensures q == queries[crntQueryIndex]
      ensures queries[..] == old(queries[..])
    {
      crntQueryIndex := (crntQueryIndex + 1) % queries.Length;
      timestamps[crntQueryIndex] := now;
      q := queries[crntQueryIndex];
    }

    /** `getOcclusionQueryToCheck` at frame `now`; `q` is the caller's
        handle, overwritten only when the result may be read. */
    method GetOcclusionQueryToCheck(now: u32, q: OcclusionQuery) returns (q': OcclusionQuery, queryInvalid: bool)
      requires Valid()
      ensures queryInvalid <==> CheckSlot(State(), now).None?
      ensures queryInvalid ==> q' == q
      ensures !queryInvalid ==> q' == queries[CheckSlot(State(), now).value]
    {
      var idx := (crntQueryIndex + 1) % queries.Length;
      q' := q;
      if timestamps[idx] == MaxU32 || timestamps[idx] != SubU32(now, 2) {
        queryInvalid := true;
      } else {
        queryInvalid := false;
        q' := queries[idx];
      }
    }
  }
}
