/** A stored memory as the spreadsheet hands it back: one dictionary per data row, from column
    header to cell text, and the filters the store and the summaries apply to such lists. */
module Memories {

  type Record = map<string, string>

  const DateColumn := "Datum"
  const OriginalColumn := "Original Text"
  const EnhancedColumn := "Aufbereiteter Text"
  const MonthColumn := "Monat"
  const YearColumn := "Jahr"

  /** The fixed header row of the memory sheet. */
  const Headers: seq<string> := [DateColumn, OriginalColumn, EnhancedColumn, MonthColumn, YearColumn]

  /** Python's `record.get(key, '')`. */
  function Get(r: Record, key: string): string {
    if key in r then r[key] else ""
  }

  /** Python's `record.get(key) == value`: a missing key gives `None`, which equals no string. */
  predicate Matches(r: Record, key: string, value: string) {
    key in r && r[key] == value
  }

  /** For a non-empty value, `record.get(key, '') == value` and `record.get(key) == value` agree. */
  lemma GetMatches(r: Record, key: string, value: string)
    requires value != ""
    ensures Get(r, key) == value <==> Matches(r, key, value)
  {
  }

  /** The list comprehension `[r for r in rs if r.get(key) == value]`. */
  function Filter(rs: seq<Record>, key: string, value: string): (out: seq<Record>)
    ensures |out| <= |rs|
    decreases |rs|
  {
    if rs == [] then []
    else Filter(rs[..|rs| - 1], key, value) + (if Matches(rs[|rs| - 1], key, value) then [rs[|rs| - 1]] else [])
  }

  /** The filter holds exactly the matching records, each as often as in `rs`. */
  lemma {:induction false} FilterContents(rs: seq<Record>, key: string, value: string)
    ensures var out := Filter(rs, key, value);
      && (forall r :: multiset(out)[r] == if Matches(r, key, value) then multiset(rs)[r] else 0)
      && (forall r :: r in out <==> r in rs && Matches(r, key, value))
    decreases |rs|
  {
    if rs != [] {
      var init, last := rs[..|rs| - 1], rs[|rs| - 1];
      assert rs == init + [last];
      FilterContents(init, key, value);
    }
  }

  /** Filtering keeps the original order: it distributes over concatenation. */
  lemma {:induction false} FilterAppend(a: seq<Record>, b: seq<Record>, key: string, value: string)
    ensures Filter(a + b, key, value) == Filter(a, key, value) + Filter(b, key, value)
    decreases |b|
  {
    if b != [] {
      var b' := b[..|b| - 1];
      assert (a + b)[..|a + b| - 1] == a + b';
      FilterAppend(a, b', key, value);
    } else {
      assert a + b == a;
    }
  }

  /** A list whose records all match is its own filter, so filtering twice is filtering once. */
  lemma {:induction false} FilterAllMatching(rs: seq<Record>, key: string, value: string)
    requires forall i :: 0 <= i < |rs| ==> Matches(rs[i], key, value)
    ensures Filter(rs, key, value) == rs
    decreases |rs|
  {
    if rs != [] {
      var init, last := rs[..|rs| - 1], rs[|rs| - 1];
      assert rs == init + [last];
      FilterAllMatching(init, key, value);
      assert Matches(last, key, value);
    }
  }

  lemma FilterIdempotent(rs: seq<Record>, key: string, value: string)
    ensures Filter(Filter(rs, key, value), key, value) == Filter(rs, key, value)
  {
    var out := Filter(rs, key, value);
    FilterContents(rs, key, value);
    assert forall i :: 0 <= i < |out| ==> out[i] in out;
    FilterAllMatching(out, key, value);
  }
}
