/** Pages of rows that pass a filter, collected from a source that is itself read page by page. */
module FilteredPaging {
  import opened Wrappers

  datatype Page<Row> = Page(rows: seq<Row>, nextCursor: Option<nat>)

  function Filter<Row>(rows: seq<Row>, keep: Row -> bool): (r: seq<Row>)
    ensures |r| <= |rows|
  {
    if rows == [] then [] else (if keep(rows[0]) then [rows[0]] else []) + Filter(rows[1..], keep)
  }

  lemma {:induction false} FilterConcat<Row>(a: seq<Row>, b: seq<Row>, keep: Row -> bool)
    ensures Filter(a + b, keep) == Filter(a, keep) + Filter(b, keep)
  {
    if a == [] {
      assert a + b == b;
    } else {
      var first := if keep(a[0]) then [a[0]] else [];
      var rest, tail := Filter(a[1..], keep), Filter(b, keep);
      assert (a + b)[1..] == a[1..] + b && (a + b)[0] == a[0];
      FilterConcat(a[1..], b, keep);
      assert Filter(a + b, keep) == first + (rest + tail);
      assert first + (rest + tail) == first + rest + tail;
    }
  }

  /** The kept rows, in order: `at` says where they are. */
  lemma {:induction false} FilterKeeps<Row>(rows: seq<Row>, keep: Row -> bool) returns (at: seq<nat>)
    ensures |at| == |Filter(rows, keep)|
    ensures forall k :: 0 <= k < |at| ==> at[k] < |rows| && rows[at[k]] == Filter(rows, keep)[k] && keep(rows[at[k]])
    ensures forall j, k :: 0 <= j < k < |at| ==> at[j] < at[k]
    ensures forall i :: 0 <= i < |rows| && keep(rows[i]) ==> i in at
  {
    at := [];
    if rows != [] {
      var last := |rows| - 1;
      assert rows == rows[..last] + [rows[last]];
      FilterConcat(rows[..last], [rows[last]], keep);
      assert [rows[last]][1..] == [];
      at := FilterKeeps(rows[..last], keep);
      if keep(rows[last]) {
        at := at + [last];
      }
    }
  }

  /**
   One page of a keyset source: the rows that follow the cursor, at most `limit` of them and at least one
   if there are any, and a cursor after them, which may be missing only at the end.
   */
  ghost predicate IsPage<Row>(source: seq<Row>, start: nat, limit: nat, page: Page<Row>) {
    && start <= |source|
    && |page.rows| <= limit && start + |page.rows| <= |source|
    && page.rows == source[start..start + |page.rows|]
    && (start < |source| ==> page.rows != [])
    && (page.nextCursor.Some? ==> page.nextCursor.value == start + |page.rows|)
    && (page.nextCursor.None? ==> start + |page.rows| == |source|)
  }

  ghost predicate IsKeyset<Row(!new)>(source: seq<Row>, load: (nat, nat) -> Page<Row>) {
    forall start: nat, limit: nat :: start <= |source| && limit > 0 ==> IsPage(source, start, limit, load(start, limit))
  }

  lemma NothingKept<Row>(keep: Row -> bool)
    ensures Filter([], keep) == []
  {
  }

  /** How far so many loads get from a position, when this many kept rows are wanted. */
  ghost function EndAfter<Row(!new)>(source: seq<Row>, load: (nat, nat) -> Page<Row>, keep: Row -> bool,
                                     position: nat, wanted: nat, loads: nat): nat
    requires IsKeyset(source, load) && position <= |source|
    decreases loads
  {
    if loads == 0 || wanted == 0 || position == |source| then position
    else
      var page := load(position, wanted);
      assert IsPage(source, position, wanted, page);
      var kept := |Filter(page.rows, keep)|;
      EndAfter(source, load, keep, position + |page.rows|, wanted - kept, loads - 1)
  }

  lemma EndOfLoads<Row(!new)>(source: seq<Row>, load: (nat, nat) -> Page<Row>, keep: Row -> bool, position: nat, wanted: nat, loads: nat)
    requires IsKeyset(source, load) && position <= |source|
    ensures loads == 0 || wanted == 0 || position == |source| ==> EndAfter(source, load, keep, position, wanted, loads) == position
  {
  }

  lemma EndOfNextLoad<Row(!new)>(source: seq<Row>, load: (nat, nat) -> Page<Row>, keep: Row -> bool,
                                 position: nat, wanted: nat, loads: nat)
    requires IsKeyset(source, load) && position < |source| && wanted > 0 && loads > 0
    ensures var page := load(position, wanted);
            && position + |page.rows| <= |source| && |Filter(page.rows, keep)| <= wanted
            && EndAfter(source, load, keep, position, wanted, loads)
               == EndAfter(source, load, keep, position + |page.rows|, wanted - |Filter(page.rows, keep)|, loads - 1)
  {
    assert IsPage(source, position, wanted, load(position, wanted));
  }

  /** Reads on until the page is full, the source ends, or enough rounds have been made. */
  method CollectFilteredCursorPage<Row(!new)>(
      load: (nat, nat) -> Page<Row>, keep: Row -> bool, cursor: nat, limit: nat, maxFetchRounds: int, ghost source: seq<Row>)
    returns (rows: seq<Row>, nextCursor: Option<nat>, ghost end: nat)
    requires IsKeyset(source, load) && cursor <= |source| && limit > 0
    ensures |rows| <= limit
    ensures cursor <= end <= |source| && rows == Filter(source[cursor..end], keep)
    ensures nextCursor == None ==> end == |source|
    ensures nextCursor.Some? ==> nextCursor.value == end && cursor < end
    ensures nextCursor.Some? && |rows| < limit ==> end - cursor >= maxFetchRounds
    ensures end == EndAfter(source, load, keep, cursor, limit, if maxFetchRounds < 1 then 1 else maxFetchRounds)
  {
    hide EndAfter, Filter;
    NothingKept(keep);
    assert source[cursor..cursor] == [];
    ghost var loads := if maxFetchRounds < 1 then 1 else maxFetchRounds;
    rows := [];
    nextCursor := None;
    end := cursor;
    var position := cursor;
    var rounds := 0;
    while |rows| < limit
      invariant |rows| < limit
      invariant cursor <= position == end <= |source| && rows == Filter(source[cursor..end], keep)
      invariant rounds > 0 ==> nextCursor == Some(end) && cursor < end
      invariant rounds == 0 ==> rows == []
      invariant 0 <= rounds <= end - cursor && (rounds == 0 || rounds < maxFetchRounds)
      invariant EndAfter(source, load, keep, cursor, limit, loads)
             == EndAfter(source, load, keep, end, limit - |rows|, loads - rounds)
      decreases |source| - position, if rounds == 0 then 1 else 0
    {
      rounds := rounds + 1;
      var page := load(position, limit - |rows|);
      assert IsPage(source, position, limit - |rows|, page);
      EndOfLoads(source, load, keep, end, limit - |rows|, loads - (rounds - 1));
      if page.rows == [] {
        nextCursor := None;
        break;
      }
      EndOfNextLoad(source, load, keep, end, limit - |rows|, loads - (rounds - 1));
      assert source[cursor..end + |page.rows|] == source[cursor..end] + page.rows;
      FilterConcat(source[cursor..end], page.rows, keep);
      rows := rows + Filter(page.rows, keep);
      nextCursor := page.nextCursor;
      end := end + |page.rows|;
      EndOfLoads(source, load, keep, end, limit - |rows|, loads - rounds);
      if |rows| >= limit || page.nextCursor == None || rounds >= maxFetchRounds {
        break;
      }
      position := page.nextCursor.value;
    }
  }

  /** Following the cursors from the beginning gives the filtered source, each row once and in order. */
  method CollectAll<Row(!new)>(load: (nat, nat) -> Page<Row>, keep: Row -> bool, limit: nat, maxFetchRounds: int,
                               ghost source: seq<Row>)
    returns (pages: seq<seq<Row>>, all: seq<Row>)
    requires IsKeyset(source, load) && limit > 0
    ensures all == Filter(source, keep) && all == Joined(pages)
    ensures forall i :: 0 <= i < |pages| ==> |pages[i]| <= limit
  {
    pages, all := [], [];
    var cursor: Option<nat> := Some(0);
    ghost var position := 0;
    assert source[..0] == [];
    while cursor.Some?
      invariant position <= |source| && all == Filter(source[..position], keep) && all == Joined(pages)
      invariant cursor.Some? ==> cursor.value == position
      invariant cursor.None? ==> position == |source|
      invariant forall i :: 0 <= i < |pages| ==> |pages[i]| <= limit
      decreases |source| - position, if cursor.Some? then 1 else 0
    {
      var rows, next;
      ghost var end;
      rows, next, end := CollectFilteredCursorPage(load, keep, cursor.value, limit, maxFetchRounds, source);
      assert source[..end] == source[..position] + source[position..end];
      FilterConcat(source[..position], source[position..end], keep);
      JoinedAppend(pages, rows);
      pages, all := pages + [rows], all + rows;
      cursor, position := next, end;
    }
    assert source[..|source|] == source;
  }

  function Joined<Row>(pages: seq<seq<Row>>): seq<Row> {
    if pages == [] then [] else pages[0] + Joined(pages[1..])
  }

  lemma {:induction false} JoinedAppend<Row>(pages: seq<seq<Row>>, rows: seq<Row>)
    ensures Joined(pages + [rows]) == Joined(pages) + rows
  {
    if pages == [] {
      assert pages + [rows] == [rows];
      assert [rows][1..] == [];
    } else {
      assert (pages + [rows])[1..] == pages[1..] + [rows];
      JoinedAppend(pages[1..], rows);
    }
  }
}
