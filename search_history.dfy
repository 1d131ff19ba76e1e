/**
 * The search history: a most-recently-used list of geocoding results,
 * capped at ten entries and kept in the browser's local storage under one key.
 */
module SearchHistory {
  import opened Wrappers
  import opened Geocoding

  /** The cap on the number of entries `addToHistory` keeps. */
  const MaxHistoryItems: nat := 10

  /**
   * What the storage key holds when it is present: text that parses as a list
   * of results, or text that does not parse.
   */
  datatype Stored = Parsed(items: seq<GeocodingResult>) | Malformed

  /** A `placeId` is truthy when it is present and not zero. */
  predicate HasTruthyPlaceId(r: GeocodingResult) {
    r.placeId.Some? && r.placeId.value != 0
  }

  /** The test `addToHistory` uses to find an existing entry for `item`. */
  predicate Matches(h: GeocodingResult, item: GeocodingResult) {
    (HasTruthyPlaceId(h) && h.placeId == item.placeId) || (h.lat == item.lat && h.lon == item.lon)
  }

  /** The test `removeFromHistory` keeps an entry by, in the source's own form. */
  predicate KeptOnRemoval(h: GeocodingResult, item: GeocodingResult) {
    (!HasTruthyPlaceId(h) || h.placeId != item.placeId) && !(h.lat == item.lat && h.lon == item.lon)
  }

  /** `getSearchHistory`: the stored list, or `[]` when the key is absent or does not parse. */
  function StoredHistory(storage: Option<Stored>): (h: seq<GeocodingResult>)
    ensures storage.None? ==> h == []
    ensures storage == Some(Malformed) ==> h == []
    ensures storage.Some? && storage.value.Parsed? ==> h == storage.value.items
  {
    match storage
    case None => []
    case Some(Malformed) => []
    case Some(Parsed(items)) => items
  }

  /** `findIndex` with `Matches`: the first matching index, or -1 when nothing matches. */
  function FirstMatch(h: seq<GeocodingResult>, item: GeocodingResult): (i: int)
    ensures -1 <= i < |h|
    ensures i == -1 <==> forall k :: 0 <= k < |h| ==> !Matches(h[k], item)
    ensures i != -1 ==> Matches(h[i], item) && forall k :: 0 <= k < i ==> !Matches(h[k], item)
  {
    if h == [] then -1
    else if Matches(h[0], item) then 0
    else
      var j := FirstMatch(h[1..], item);
      if j == -1 then -1 else j + 1
  }

  /** `item` in front of `moved`, the last entry dropped when that makes one too many; the others move down by one. */
  function CapFront(item: GeocodingResult, moved: seq<GeocodingResult>): (r: seq<GeocodingResult>)
    ensures |r| == (if |moved| + 1 > MaxHistoryItems then |moved| else |moved| + 1)
    ensures r[0] == item
    ensures forall k :: 0 <= k < |moved| && k + 1 < |r| ==> r[k + 1] == moved[k]
    ensures forall x :: x in r ==> x == item || x in moved
  {
    var front := [item] + moved;
    if |front| > MaxHistoryItems then front[..|front| - 1] else front
  }

  /** The history `addToHistory` writes back, given the history it read. */
  function Added(h: seq<GeocodingResult>, item: GeocodingResult): (r: seq<GeocodingResult>)
    ensures |r| >= 1 && r[0] == item
    ensures |h| <= MaxHistoryItems ==> |r| <= MaxHistoryItems
    ensures |r| <= |h| + 1
    ensures forall x :: x in r ==> x == item || x in h
  {
    var i := FirstMatch(h, item);
    CapFront(item, if i == -1 then h else h[..i] + h[i + 1..])
  }

  /**
   * Where the old entries go: without a match every entry moves down by one;
   * with a match the entries before it move down by one and the entries after
   * it keep their index. The matching entry is the only one removed, apart
   * from the last one on overflow.
   */
  lemma AddedPositions(h: seq<GeocodingResult>, item: GeocodingResult)
    ensures var r := Added(h, item);
      FirstMatch(h, item) == -1 ==>
        && |r| == (if |h| + 1 > MaxHistoryItems then |h| else |h| + 1)
        && forall k :: 0 <= k < |h| && k + 1 < |r| ==> r[k + 1] == h[k]
    ensures var r := Added(h, item); var i := FirstMatch(h, item);
      i != -1 ==>
        && |r| == (if |h| > MaxHistoryItems then |h| - 1 else |h|)
        && (forall k :: 0 <= k < i && k + 1 < |r| ==> r[k + 1] == h[k])
        && (forall k :: i < k < |r| ==> r[k] == h[k])
  {
    var i := FirstMatch(h, item);
    if i != -1 {
      AddedPositionsAroundMatch(h, item, i);
    }
  }

  /** The case of `AddedPositions` with a match at `i`. */
  lemma AddedPositionsAroundMatch(h: seq<GeocodingResult>, item: GeocodingResult, i: int)
    requires 0 <= i < |h| && FirstMatch(h, item) == i
    ensures var r := Added(h, item);
      && |r| == (if |h| > MaxHistoryItems then |h| - 1 else |h|)
      && (forall k :: 0 <= k < i && k + 1 < |r| ==> r[k + 1] == h[k])
      && (forall k :: i < k < |r| ==> r[k] == h[k])
  {
    assert Added(h, item) == CapFront(item, h[..i] + h[i + 1..]);
    CapFrontAfterDelete(h, item, i);
  }

  /** `CapFront` over `h` with index `i` deleted: the entries before `i` move down by one, the ones after keep their index. */
  lemma CapFrontAfterDelete(h: seq<GeocodingResult>, item: GeocodingResult, i: int)
    requires 0 <= i < |h|
    ensures var r := CapFront(item, h[..i] + h[i + 1..]);
      && |r| == (if |h| > MaxHistoryItems then |h| - 1 else |h|)
      && (forall k :: 0 <= k < i && k + 1 < |r| ==> r[k + 1] == h[k])
      && (forall k :: i < k < |r| ==> r[k] == h[k])
  {
    var moved := h[..i] + h[i + 1..];
    DeleteAt(h, i);
    var r := CapFront(item, moved);
    forall k | i < k < |r| ensures r[k] == h[k] {
      var j := k - 1;
      assert r[j + 1] == moved[j];
    }
  }

  /** Deleting index `i`: the entries before it stay, the entries after it move up by one. */
  lemma DeleteAt<T>(h: seq<T>, i: int)
    requires 0 <= i < |h|
    ensures var m := h[..i] + h[i + 1..];
      && |m| == |h| - 1
      && (forall k :: 0 <= k < i ==> m[k] == h[k])
      && (forall k :: i <= k < |m| ==> m[k] == h[k + 1])
  {
  }

  /** When the list is full and nothing matches, the oldest entry is the one dropped. */
  lemma AddedToFullDropsOldest(h: seq<GeocodingResult>, item: GeocodingResult)
    requires |h| == MaxHistoryItems && FirstMatch(h, item) == -1
    ensures Added(h, item) == [item] + h[..MaxHistoryItems - 1]
  {
    assert ([item] + h)[..|h|] == [item] + h[..MaxHistoryItems - 1];
  }

  /** Every entry matches itself (by its coordinates). */
  lemma MatchesItself(item: GeocodingResult)
    ensures Matches(item, item)
  {
  }

  /** Adding the same item twice in a row gives the history adding it once gives. */
  lemma {:induction false} AddedIdempotent(h: seq<GeocodingResult>, item: GeocodingResult)
    requires |h| <= MaxHistoryItems
    ensures Added(Added(h, item), item) == Added(h, item)
  {
    var r := Added(h, item);
    MatchesItself(item);
    assert FirstMatch(r, item) == 0;
    assert r[..0] + r[1..] == r[1..];
    assert Added(r, item) == CapFront(item, r[1..]);
    assert [item] + r[1..] == r;
  }

  /** `removeFromHistory`'s `filter`: the entries kept by `KeptOnRemoval`, in order. */
  function Removed(h: seq<GeocodingResult>, item: GeocodingResult): (r: seq<GeocodingResult>)
    ensures |r| <= |h|
    ensures forall x :: x in r <==> x in h && !Matches(x, item)
  {
    if h == [] then []
    else (if KeptOnRemoval(h[0], item) then [h[0]] else []) + Removed(h[1..], item)
  }

  /** After removal no entry matches the item as `addToHistory` would match it. */
  lemma RemovedLeavesNoMatch(h: seq<GeocodingResult>, item: GeocodingResult)
    ensures FirstMatch(Removed(h, item), item) == -1
  {
    var r := Removed(h, item);
    assert forall k :: 0 <= k < |r| ==> r[k] in r;
  }

  /** Removal keeps the order of the entries: it distributes over concatenation. */
  lemma {:induction false} RemovedAppend(a: seq<GeocodingResult>, b: seq<GeocodingResult>, item: GeocodingResult)
    ensures Removed(a + b, item) == Removed(a, item) + Removed(b, item)
  {
    if a == [] {
      assert a + b == b;
    } else {
      assert (a + b)[0] == a[0];
      assert (a + b)[1..] == a[1..] + b;
      RemovedAppend(a[1..], b, item);
    }
  }

  /** Removing an item nothing matches leaves the history as it is. */
  lemma {:induction false} RemovedWithoutMatch(h: seq<GeocodingResult>, item: GeocodingResult)
    requires FirstMatch(h, item) == -1
    ensures Removed(h, item) == h
  {
    if h != [] {
      assert !Matches(h[0], item);
      assert FirstMatch(h[1..], item) == -1 by {
        forall k | 0 <= k < |h| - 1 ensures !Matches(h[1..][k], item) {
          assert h[1..][k] == h[k + 1];
        }
      }
      RemovedWithoutMatch(h[1..], item);
    }
  }

  /** The service; `storage` is the value under its local-storage key (`None` when absent). */
  class SearchHistoryService {
    var storage: Option<Stored>

    /** The service starts over whatever local storage already holds. */
    constructor(initial: Option<Stored>)
      ensures storage == initial
    {
      storage := initial;
    }

    /** `getSearchHistory`. */
    method GetSearchHistory() returns (history: seq<GeocodingResult>)
      ensures history == StoredHistory(storage)
    {
      match storage
      case None =>
        history := [];
      case Some(Malformed) =>
        history := [];
      case Some(Parsed(items)) =>
        history := items;
    }

    /** The `findIndex` of `addToHistory`, as the scan it performs. */
    static method FindExisting(history: seq<GeocodingResult>, item: GeocodingResult) returns (index: int)
      ensures index == FirstMatch(history, item)
    {
      var k := 0;
      while k < |history| && !Matches(history[k], item)
        invariant 0 <= k <= |history|
        invariant forall j :: 0 <= j < k ==> !Matches(history[j], item)
      {
        k := k + 1;
      }
      if k == |history| {
        index := -1;
      } else {
        index := k;
        FirstMatchIsFirst(history, item, k);
      }
    }

    /**
     * `addToHistory`: read, remove the first match, put the item in front, drop
     * the last entry on overflow, write back. `writeFails` says whether the
     * storage write throws (a full quota), in which case storage is unchanged.
     */
    method AddToHistory(item: GeocodingResult, writeFails: bool)
      modifies this`storage
      ensures storage == if writeFails then old(storage) else Some(Parsed(Added(StoredHistory(old(storage)), item)))
    {
      var history := GetSearchHistory();
      ghost var read := history;
      var existingIndex := FindExisting(history, item);
      if existingIndex != -1 {
        history := history[..existingIndex] + history[existingIndex + 1..];
      }
      history := [item] + history;
      if |history| > MaxHistoryItems {
        history := history[..|history| - 1];
      }
      assert history == Added(read, item);
      SaveHistory(history, writeFails);
    }

    /** `removeFromHistory`: keep the entries that do not match, write back. */
    method RemoveFromHistory(item: GeocodingResult, writeFails: bool)
      modifies this`storage
      ensures storage == if writeFails then old(storage) else Some(Parsed(Removed(StoredHistory(old(storage)), item)))
    {
      var history := GetSearchHistory();
      history := Removed(history, item);
      SaveHistory(history, writeFails);
    }

    /** `clearHistory`: remove the key; the history read afterwards is empty. */
    method ClearHistory()
      modifies this`storage
      ensures storage == None && StoredHistory(storage) == []
    {
      storage := None;
    }

    /** `saveHistory`: store the list, unless the write throws, which is caught and leaves storage as it was. */
    method SaveHistory(history: seq<GeocodingResult>, writeFails: bool)
      modifies this`storage
      ensures storage == if writeFails then old(storage) else Some(Parsed(history))
    {
      if !writeFails {
        storage := Some(Parsed(history));
      }
    }
  }

  /** An index with no match before it and a match at it is the first match. */
  lemma {:induction false} FirstMatchIsFirst(h: seq<GeocodingResult>, item: GeocodingResult, k: nat)
    requires k < |h| && Matches(h[k], item)
    requires forall j :: 0 <= j < k ==> !Matches(h[j], item)
    ensures FirstMatch(h, item) == k
  {
    if k > 0 {
      assert h[1..][k - 1] == h[k];
      assert forall j :: 0 <= j < k - 1 ==> h[1..][j] == h[j + 1];
      FirstMatchIsFirst(h[1..], item, k - 1);
    }
  }
}
