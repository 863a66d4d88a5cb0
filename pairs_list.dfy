/**
 * The pair list's row filter. The list is given an optional filter with
 * an optional address and an optional locked flag; it takes the rows of
 * the fetched data (none when the data or its rows are missing) and keeps,
 * in order, those the filter lets through. A non-empty address wins over
 * the locked flag. When nothing is kept the list shows "Pair not found".
 */
module PairsList {
  import opened Base

  /** A row of the fetched pair data: the pair's address and the LP amount locked on it. */
  datatype Pair = Pair(id: string, lockedAmount: real)

  /** The fetched data; its rows may be missing. */
  datatype PairData = PairData(rows: Option<seq<Pair>>)

  /** The filter property: both fields optional. */
  datatype Filter = Filter(address: Option<string>, locked: Option<bool>)

  /** What the list shows once loaded. */
  datatype View = PairNotFound | PairItems(pairs: seq<Pair>)

  /** `data?.rows || []`: a missing data object or missing rows is the empty list. */
  function Rows(data: Option<PairData>): (rows: seq<Pair>)
    ensures data.None? ==> rows == []
    ensures data.Some? && data.value.rows.None? ==> rows == []
    ensures data.Some? && data.value.rows.Some? ==> rows == data.value.rows.value
  {
    match data
    case None => []
    case Some(d) => match d.rows
      case None => []
      case Some(rs) => rs
  }

  /** A string field is truthy when it is there and not empty. */
  predicate HasAddress(f: Filter)
  {
    f.address.Some? && f.address.value != ""
  }

  /** The filter predicate handed to Array.filter. */
  predicate Keeps(filter: Option<Filter>, row: Pair)
  {
    match filter
    case None => true
    case Some(f) =>
      if HasAddress(f) then row.id == f.address.value
      else if f.locked == Some(true) then row.lockedAmount > 0.0
      else true
  }

  /** Array.filter: the rows the predicate keeps, in their order. */
  function Select(filter: Option<Filter>, rows: seq<Pair>): (kept: seq<Pair>)
    ensures |kept| <= |rows|
    ensures forall p :: p in kept <==> p in rows && Keeps(filter, p)
  {
    if rows == [] then []
    else (if Keeps(filter, rows[0]) then [rows[0]] else []) + Select(filter, rows[1..])
  }

  /** The rows the list shows: the fetched rows the filter keeps, no more than were fetched. */
  function FilteredRows(data: Option<PairData>, filter: Option<Filter>): (kept: seq<Pair>)
    ensures |kept| <= |Rows(data)|
    ensures forall p :: p in kept <==> p in Rows(data) && Keeps(filter, p)
  {
    Select(filter, Rows(data))
  }

  /** The loaded list: "Pair not found" exactly when no row is kept. */
  function Render(data: Option<PairData>, filter: Option<Filter>): (v: View)
    ensures v.PairNotFound? <==> forall p :: p in Rows(data) ==> !Keeps(filter, p)
    ensures v.PairItems? ==> v.pairs == FilteredRows(data, filter) && v.pairs != []
  {
    var kept := FilteredRows(data, filter);
    if |kept| == 0 then
      assert forall p :: p in Rows(data) ==> !Keeps(filter, p) by {
        forall p | p in Rows(data) ensures !Keeps(filter, p) {
          assert p !in kept;
        }
      }
      PairNotFound
    else
      assert kept[0] in kept;
      PairItems(kept)
  }

  /** a is b with some elements left out, the rest in their order. */
  predicate IsSubsequence(a: seq<Pair>, b: seq<Pair>)
    decreases |b|
  {
    a == [] || (b != [] && ((a[0] == b[0] && IsSubsequence(a[1..], b[1..])) || IsSubsequence(a, b[1..])))
  }

  lemma {:induction false} SelectIsSubsequence(filter: Option<Filter>, rows: seq<Pair>)
    ensures IsSubsequence(Select(filter, rows), rows)
  {
    if rows != [] {
      SelectIsSubsequence(filter, rows[1..]);
      var rest := Select(filter, rows[1..]);
      if Keeps(filter, rows[0]) {
        assert ([rows[0]] + rest)[1..] == rest;
      } else {
        assert Select(filter, rows) == rest;
      }
    }
  }

  /** Every kept row is kept as often as it occurs; a row the filter refuses never appears. */
  lemma {:induction false} SelectCounts(filter: Option<Filter>, rows: seq<Pair>, p: Pair)
    ensures multiset(Select(filter, rows))[p] == if Keeps(filter, p) then multiset(rows)[p] else 0
  {
    if rows != [] {
      SelectCounts(filter, rows[1..], p);
      assert rows == [rows[0]] + rows[1..];
    }
  }

  /** Without a filter every row is kept. */
  lemma {:induction false} NoFilterKeepsAll(rows: seq<Pair>)
    ensures Select(None, rows) == rows
  {
    if rows != [] {
      NoFilterKeepsAll(rows[1..]);
    }
  }

  /** A filter with neither a non-empty address nor locked set keeps every row. */
  lemma {:induction false} NeitherKeepsAll(f: Filter, rows: seq<Pair>)
    requires !HasAddress(f) && f.locked != Some(true)
    ensures Select(Some(f), rows) == rows
  {
    if rows != [] {
      NeitherKeepsAll(f, rows[1..]);
    }
  }

  /** A non-empty address keeps exactly the rows with that id, each as often as it occurs. */
  lemma AddressSelects(f: Filter, rows: seq<Pair>)
    requires HasAddress(f)
    ensures forall p :: multiset(Select(Some(f), rows))[p] == if p.id == f.address.value then multiset(rows)[p] else 0
  {
    forall p {
      SelectCounts(Some(f), rows, p);
    }
  }

  /** With a non-empty address the locked flag makes no difference. */
  lemma {:induction false} AddressIgnoresLocked(address: string, l1: Option<bool>, l2: Option<bool>, rows: seq<Pair>)
    requires address != ""
    ensures Select(Some(Filter(Some(address), l1)), rows) == Select(Some(Filter(Some(address), l2)), rows)
  {
    if rows != [] {
      AddressIgnoresLocked(address, l1, l2, rows[1..]);
    }
  }

  /** Without a usable address, locked set to true keeps exactly the rows with something locked, each as often as it occurs. */
  lemma LockedSelects(f: Filter, rows: seq<Pair>)
    requires !HasAddress(f) && f.locked == Some(true)
    ensures forall p :: multiset(Select(Some(f), rows))[p] == if p.lockedAmount > 0.0 then multiset(rows)[p] else 0
  {
    forall p {
      SelectCounts(Some(f), rows, p);
    }
  }
}
