/** What the summary generator produces, as functions of the memories, the period and the text
    the language model answers with; and what is proved about it. The step-by-step generators in
    module SummaryGenerator are proved to compute exactly these functions. */
module SummaryFormat {
  import opened PyText
  import opened Memories

  // ---------------------------------------------------------------------------
  // Month names

  const MonthNames: seq<string> :=
    ["", "Januar", "Februar", "März", "April", "Mai", "Juni",
     "Juli", "August", "September", "Oktober", "November", "Dezember"]

  const MonthAbbreviations: seq<string> :=
    ["", "Jan", "Feb", "Mär", "Apr", "Mai", "Jun",
     "Jul", "Aug", "Sep", "Okt", "Nov", "Dez"]

  /** The table entry for months 1..12; anything else is printed as a number, which reads back
      as that month. */
  function MonthName(names: seq<string>, month: int): (r: string)
    requires |names| == 13
    ensures 1 <= month <= 12 ==> r == names[month]
    ensures !(1 <= month <= 12) ==> ParseInt(r) == Some(month)
  {
    if 1 <= month <= 12 then names[month] else ParseIntOfIntToString(month); IntToString(month)
  }

  /** `str(i)` starts with a digit or a minus sign, never with a letter. */
  lemma IntToStringStart(i: int)
    ensures IntToString(i)[0] == '-' || IsDigit(IntToString(i)[0])
  {
  }

  /** No two months share a full name. */
  lemma NamesDistinct(a: int, b: int)
    requires 1 <= a <= 12 && 1 <= b <= 12
    ensures MonthNames[a] == MonthNames[b] ==> a == b
  {
    var s, t := MonthNames[a], MonthNames[b];
    if s == t {
      assert |s| >= 3 && s[0] == t[0] && s[2] == t[2] && |s| == |t|;
    }
  }

  /** No two months share an abbreviation. */
  lemma AbbreviationsDistinct(a: int, b: int)
    requires 1 <= a <= 12 && 1 <= b <= 12
    ensures MonthAbbreviations[a] == MonthAbbreviations[b] ==> a == b
  {
    var u, v := MonthAbbreviations[a], MonthAbbreviations[b];
    if u == v {
      assert |u| == 3 && u[0] == v[0] && u[1] == v[1] && u[2] == v[2];
    }
  }

  /** Every table entry for a month starts with a capital letter, never like a number. */
  lemma TablesCapitalized(a: int)
    requires 1 <= a <= 12
    ensures 'A' <= MonthNames[a][0] <= 'Z' && 'A' <= MonthAbbreviations[a][0] <= 'Z'
  {
  }

  /** Different months never print alike, whether they are named from a table or printed as
      numbers: the month shown in a summary identifies its month. */
  lemma {:induction false} MonthNameInjective(names: seq<string>, a: int, b: int)
    requires names == MonthNames || names == MonthAbbreviations
    requires MonthName(names, a) == MonthName(names, b)
    ensures a == b
  {
    IntToStringStart(a);
    IntToStringStart(b);
    if 1 <= a <= 12 && 1 <= b <= 12 {
      NamesDistinct(a, b);
      AbbreviationsDistinct(a, b);
    } else if !(1 <= a <= 12) && !(1 <= b <= 12) {
      ParseIntOfIntToString(a);
      ParseIntOfIntToString(b);
    } else if 1 <= a <= 12 {
      TablesCapitalized(a);
    } else {
      TablesCapitalized(b);
    }
  }

  /** The month number of a `Monat` key: the integer after the first `-`, or 1 without a `-`;
      `None` where Python's `int` raises. */
  function MonthNumber(key: string): (r: Option<int>)
    ensures '-' !in key ==> r == Some(1)
    ensures r.None? ==> '-' in key && ParseInt(SecondField(key, '-')).None?
  {
    if '-' in key then ParseInt(SecondField(key, '-')) else Some(1)
  }

  /** A key `f"{year}-{month:02d}"` as the store writes it parses back to its month. */
  lemma MonthNumberOfKey(year: nat, month: nat)
    ensures MonthNumber(IntToString(year) + "-" + Pad2(month)) == Some(month)
  {
    KeyFields(year, month);
    ParseIntOfPad2(month);
  }

  /** In a key `f"{year}-{month:02d}"` the field after the first `-` is the padded month. */
  lemma KeyFields(year: nat, month: nat)
    ensures var key := IntToString(year) + "-" + Pad2(month);
      '-' in key && SecondField(key, '-') == Pad2(month)
  {
    var y, p := IntToString(year), Pad2(month);
    var key := y + "-" + p;
    assert '-' !in y by {
      assert y == NatToString(year);
    }
    assert '-' !in p by {
      if month < 10 {
        assert p == "0" + NatToString(month);
      } else {
        assert p == NatToString(month);
      }
    }
    assert key[|y|] == '-';
    assert BeforeFirst(key, '-') == y by {
      var b := BeforeFirst(key, '-');
      assert b == key[..|b|] == y;
    }
    assert AfterFirst(key, '-') == p;
  }

  // ---------------------------------------------------------------------------
  // Listings of single memories

  /** The part of a `Datum` before the first space: the date without the time. */
  function DatePart(m: Record): string {
    BeforeFirst(Get(m, DateColumn), ' ')
  }

  /** One listed memory: `"{number}. [{date}] {text}"`, the text cut to `keep` characters plus
      "..." when it is longer. */
  function ListingLine(number: int, m: Record, keep: nat): string {
    IntToString(number) + ". [" + DatePart(m) + "] " + Truncate(Get(m, EnhancedColumn), keep) + "\n"
  }

  /** The listed lines: the first ten memories, numbered from 1 in input order. */
  function ListingLines(ms: seq<Record>, keep: nat): (r: seq<string>)
    ensures |r| == Min(10, |ms|)
    ensures forall i :: 0 <= i < |r| ==> r[i] == ListingLine(i + 1, ms[i], keep)
  {
    seq(Min(10, |ms|), i requires 0 <= i < Min(10, |ms|) => ListingLine(i + 1, ms[i], keep))
  }

  /** A listing depends only on the first ten memories. */
  lemma ListingFirstTen(ms: seq<Record>, keep: nat)
    ensures ListingLines(ms, keep) == ListingLines(ms[..Min(10, |ms|)], keep)
  {
  }

  /** Each listed line starts with its number, which reads back as that number. */
  lemma ListingLineNumber(number: int, m: Record, keep: nat)
    ensures ParseInt(BeforeFirst(ListingLine(number, m, keep), '.')) == Some(number)
  {
    var n := IntToString(number);
    var rest := " [" + DatePart(m) + "] " + Truncate(Get(m, EnhancedColumn), keep) + "\n";
    assert ListingLine(number, m, keep) == n + ['.'] + rest;
    IntToStringChars(number, '.');
    BeforeFirstOfJoin(n, '.', rest);
    ParseIntOfIntToString(number);
  }

  /** The listing: at most ten lines, numbered 1, 2, ... in input order. */
  lemma ListingNumbers(ms: seq<Record>, keep: nat)
    ensures |ListingLines(ms, keep)| <= 10
    ensures forall i :: 0 <= i < |ListingLines(ms, keep)| ==>
      ParseInt(BeforeFirst(ListingLines(ms, keep)[i], '.')) == Some(i + 1)
  {
    forall i | 0 <= i < |ListingLines(ms, keep)| {
      ListingLineNumber(i + 1, ms[i], keep);
    }
  }

  /** The trailer after a listing, present exactly when more than ten memories were given. */
  function MoreLine(count: nat, what: string): (r: string)
    ensures r != "" <==> count > 10
  {
    if count > 10 then "\n... und" + (" " + IntToString(count - 10) + " ") + ("weitere " + what + "\n") else ""
  }

  /** The trailer names the number of memories left out of the listing. */
  lemma MoreLineCount(count: nat, what: string)
    requires count > 10
    ensures IsSubstring(" " + IntToString(count - 10) + " ", MoreLine(count, what))
  {
    SubstringOfConcat("\n... und", " " + IntToString(count - 10) + " ", "weitere " + what + "\n");
  }

  // ---------------------------------------------------------------------------
  // Monthly summaries

  /** The requests made to the language model; its answers are inputs of the model. */
  datatype AiRequest =
    | MonthlyPrompt(period: string, texts: seq<string>)
    | YearlyPrompt(year: int, highlights: seq<string>, total: nat, activeMonths: nat)

  /** The month and year as a heading prints them. */
  function Period(year: int, month: int): string {
    MonthName(MonthNames, month) + " " + IntToString(year)
  }

  /** The prompt lines `"[{date}] {enhanced}"`, one per memory that has an enhanced text, in
      input order. */
  function MemoryTexts(ms: seq<Record>): (r: seq<string>)
    ensures |r| <= |ms|
    ensures r == [] <==> forall i :: 0 <= i < |ms| ==> Get(ms[i], EnhancedColumn) == ""
    decreases |ms|
  {
    if ms == [] then []
    else
      var init, last := ms[..|ms| - 1], ms[|ms| - 1];
      assert forall i :: 0 <= i < |init| ==> init[i] == ms[i];
      MemoryTexts(init) + (if Get(last, EnhancedColumn) != "" then ["[" + Get(last, DateColumn) + "] " + Get(last, EnhancedColumn)] else [])
  }

  const EmptyMonthlyBody :=
    "**\n\n"
    + "📝 **Noch keine Erinnerungen gesammelt**\n\n"
    + "💡 **Tipp:** Sende Sprachnachrichten über die schönen Momente mit deiner Tochter, um diesen Monat mit Leben zu füllen!\n\n"
    + "🎤 Erzähle von:\n"
    + "• Lustigen Sprüchen oder Reaktionen\n"
    + "• Besonderen Momenten im Alltag\n"
    + "• Neuen Fähigkeiten oder Entwicklungen\n"
    + "• Gemeinsamen Erlebnissen und Abenteuern\n\n"
    + "💝 Jede kleine Erinnerung ist wertvoll!"

  /** The template for a month without memories; it depends on nothing but the period. */
  function EmptyMonthly(year: int, month: int): (r: string)
    ensures |r| > 0 && r[0] == '📅'
    ensures IsSubstring(Period(year, month), r)
  {
    SubstringOfConcat("📅 **Monats-Zusammenfassung ", Period(year, month), EmptyMonthlyBody);
    "📅 **Monats-Zusammenfassung " + Period(year, month) + EmptyMonthlyBody
  }

  const EmptyYearlyBody :=
    "**\n\n"
    + "📝 **Noch keine Erinnerungen gesammelt**\n\n"
    + "🌟 **Ein neues Jahr voller Möglichkeiten!**\n\n"
    + "Dieses Jahr ist wie ein leeres Buch, das darauf wartet, mit wundervollen Erinnerungen an deine Tochter gefüllt zu werden.\n\n"
    + "💡 **Starte jetzt:**\n"
    + "• Sende täglich kleine Sprachnachrichten\n"
    + "• Halte besondere Momente fest\n"
    + "• Sammle lustige Sprüche und süße Reaktionen\n"
    + "• Dokumentiere Entwicklungsschritte\n\n"
    + "💝 Am Ende des Jahres wirst du ein wunderschönes Erinnerungsbuch haben!"

  /** The template for a year without memories; it depends on nothing but the year. */
  function EmptyYearly(year: int): (r: string)
    ensures |r| > 0 && r[0] == '📅'
    ensures IsSubstring(IntToString(year), r)
  {
    SubstringOfConcat("📅 **Jahres-Zusammenfassung ", IntToString(year), EmptyYearlyBody);
    "📅 **Jahres-Zusammenfassung " + IntToString(year) + EmptyYearlyBody
  }

  const MonthlyTitle := "📊 **Monats-Zusammenfassung "
  const CountOpening := "**\n\n📝 **"
  /** The words after the number of memories in the fallback monthly summary. */
  const SimpleMonthlyCount := " Erinnerungen gesammelt**\n\n📅 **Deine Erinnerungen:**\n"
  /** The words after the number of memories in the monthly summary around the model's answer. */
  const MonthlyCount := " wundervolle Erinnerungen gesammelt**\n\n✨ **Dein Monat im Rückblick:**\n\n"

  /** The heading of a monthly summary: the period and the number of memories, followed by
      `wording` (`SimpleMonthlyCount` or `MonthlyCount`). */
  function MonthlyHead(count: nat, year: int, month: int, wording: string): (r: string)
    ensures |r| > 0 && r[0] == '📊'
    ensures IsSubstring(Period(year, month), r) && IsSubstring(IntToString(count), r)
  {
    SubstringOfFive(MonthlyTitle, Period(year, month), CountOpening, IntToString(count), wording);
    MonthlyTitle + Period(year, month) + CountOpening + IntToString(count) + wording
  }

  const SimpleMonthlyClosing := "\n💝 Was für ein wundervoller Monat mit deiner Tochter!"

  /** The monthly summary without the language model: the period and the number of memories,
      the first ten memories with their texts cut at 97 characters, the trailer, the closing
      line. */
  function SimpleMonthly(ms: seq<Record>, year: int, month: int): (r: string)
    ensures |r| > 0 && r[0] == '📊'
    ensures IsSubstring(Period(year, month), r) && IsSubstring(IntToString(|ms|), r)
    ensures IsSubstring(Concat(ListingLines(ms, 97)), r) && IsSubstring(MoreLine(|ms|, "Erinnerungen"), r)
  {
    var head := MonthlyHead(|ms|, year, month, SimpleMonthlyCount);
    var listing, more := Concat(ListingLines(ms, 97)), MoreLine(|ms|, "Erinnerungen");
    SubstringOfFour(head, listing, more, SimpleMonthlyClosing);
    SubstringTransitive(Period(year, month), head, head + listing + more + SimpleMonthlyClosing);
    SubstringTransitive(IntToString(|ms|), head, head + listing + more + SimpleMonthlyClosing);
    head + listing + more + SimpleMonthlyClosing
  }

  const MonthlyListingTitle := "\n\n📅 **Alle Erinnerungen:**\n"
  const MonthlyClosing := "\n💝 Was für ein besonderer Monat mit deiner Tochter!"

  /** What follows the listing of the monthly summary: the trailer and the closing line. */
  function MonthlyTail(count: nat): string {
    MoreLine(count, "kostbare Momente") + MonthlyClosing
  }

  /** What follows the model's answer in the monthly summary. */
  function MonthlyRest(ms: seq<Record>): string {
    MonthlyListingTitle + Concat(ListingLines(ms, 77)) + MonthlyTail(|ms|)
  }

  /** What `generate_monthly_summary` asks the language model, if anything. */
  function MonthlyRequest(ms: seq<Record>, year: int, month: int): (r: Option<AiRequest>)
    ensures r.Some? <==> exists i :: 0 <= i < |ms| && Get(ms[i], EnhancedColumn) != ""
  {
    var texts := MemoryTexts(ms);
    if texts == [] then None else Some(MonthlyPrompt(Period(year, month), texts))
  }

  /** The monthly summary around the model's answer: heading, stripped answer, listing. */
  function MonthlyAnswered(ms: seq<Record>, year: int, month: int, answer: string): (r: string)
    ensures |r| > 0 && r[0] == '📊'
    ensures IsSubstring(Period(year, month), r) && IsSubstring(IntToString(|ms|), r)
  {
    SubstringOfPrefix(MonthlyHead(|ms|, year, month, MonthlyCount), Strip(answer, Whitespace), MonthlyRest(ms));
    SubstringTransitive(Period(year, month), MonthlyHead(|ms|, year, month, MonthlyCount),
      MonthlyHead(|ms|, year, month, MonthlyCount) + Strip(answer, Whitespace) + MonthlyRest(ms));
    SubstringTransitive(IntToString(|ms|), MonthlyHead(|ms|, year, month, MonthlyCount),
      MonthlyHead(|ms|, year, month, MonthlyCount) + Strip(answer, Whitespace) + MonthlyRest(ms));
    MonthlyHead(|ms|, year, month, MonthlyCount) + Strip(answer, Whitespace) + MonthlyRest(ms)
  }

  /** `generate_monthly_summary`. `reply` is the model's answer (`None`: the call raised). Every
      outcome names its period and is headed by the calendar or the statistics marker. */
  function MonthlySummary(ms: seq<Record>, year: int, month: int, reply: Option<string>): (r: string)
    ensures |r| > 0 && (r[0] == '📅' || r[0] == '📊')
    ensures IsSubstring(Period(year, month), r)
  {
    if MemoryTexts(ms) == [] then EmptyMonthly(year, month)
    else if reply.None? then SimpleMonthly(ms, year, month)
    else MonthlyAnswered(ms, year, month, reply.value)
  }

  /** The empty-month template comes back exactly when no memory has an enhanced text (an empty
      list included); every other outcome is headed by the statistics marker. */
  lemma MonthlyEmptyExactly(ms: seq<Record>, year: int, month: int, reply: Option<string>)
    ensures var r := MonthlySummary(ms, year, month, reply);
      (r[0] == '📅' <==> forall i :: 0 <= i < |ms| ==> Get(ms[i], EnhancedColumn) == "")
      && (r == EmptyMonthly(year, month) <==> forall i :: 0 <= i < |ms| ==> Get(ms[i], EnhancedColumn) == "")
  {
  }

  /** When the model answers, its stripped answer appears in the summary, and so does the
      listing of the first ten memories with texts cut at 77 characters. */
  lemma MonthlyContainsAnswer(ms: seq<Record>, year: int, month: int, answer: string)
    requires exists i :: 0 <= i < |ms| && Get(ms[i], EnhancedColumn) != ""
    ensures IsSubstring(Strip(answer, Whitespace), MonthlySummary(ms, year, month, Some(answer)))
    ensures IsSubstring(Concat(ListingLines(ms, 77)), MonthlySummary(ms, year, month, Some(answer)))
  {
    assert MemoryTexts(ms) != [];
    AnsweredContains(ms, year, month, answer);
  }

  lemma AnsweredContains(ms: seq<Record>, year: int, month: int, answer: string)
    ensures IsSubstring(Strip(answer, Whitespace), MonthlyAnswered(ms, year, month, answer))
    ensures IsSubstring(Concat(ListingLines(ms, 77)), MonthlyAnswered(ms, year, month, answer))
  {
    var intro, ai, rest := MonthlyHead(|ms|, year, month, MonthlyCount), Strip(answer, Whitespace), MonthlyRest(ms);
    SubstringOfConcat(intro, ai, rest);
    SubstringOfConcat(MonthlyListingTitle, Concat(ListingLines(ms, 77)), MonthlyTail(|ms|));
    SubstringOfSuffix(intro + ai, rest);
    SubstringTransitive(Concat(ListingLines(ms, 77)), rest, intro + ai + rest);
  }

  // ---------------------------------------------------------------------------
  // Grouping by month

  /** Every `Monat` value that occurs, the empty one included. */
  ghost function MonthValues(ms: seq<Record>): set<string> {
    set i | 0 <= i < |ms| :: Get(ms[i], MonthColumn)
  }

  /** The keys of the month groups: each non-empty `Monat` once, in order of first appearance. */
  function MonthKeys(ms: seq<Record>): (keys: seq<string>)
    ensures Distinct(keys)
    ensures (set k | k in keys) == MonthValues(ms) - {""}
    decreases |ms|
  {
    if ms == [] then []
    else
      var init, last := ms[..|ms| - 1], ms[|ms| - 1];
      var key := Get(last, MonthColumn);
      assert MonthValues(ms) == MonthValues(init) + {key} by {
        assert forall i :: 0 <= i < |init| ==> init[i] == ms[i];
      }
      var keys := MonthKeys(init);
      var r := keys + (if key != "" && key !in keys then [key] else []);
      assert (set k | k in r) == (set k | k in keys) + (if key != "" then {key} else {});
      r
  }

  /** The memories of one month, in input order (the group dictionary's list for `key`). */
  function Group(ms: seq<Record>, key: string): seq<Record> {
    Filter(ms, MonthColumn, key)
  }

  /** A key that occurs has a non-empty group; a non-empty key that does not occur has none. */
  lemma GroupOfKey(ms: seq<Record>, key: string)
    requires key != ""
    ensures key in MonthValues(ms) <==> Group(ms, key) != []
  {
    FilterContents(ms, MonthColumn, key);
    if key in MonthValues(ms) {
      var i :| 0 <= i < |ms| && Get(ms[i], MonthColumn) == key;
      GetMatches(ms[i], MonthColumn, key);
      assert ms[i] in ms;
      assert ms[i] in Group(ms, key);
    }
  }

  /** Every month the yearly summaries list, in sorted order, is a month key of the memories
      and has at least one memory. */
  lemma SortedKeyHasGroup(ms: seq<Record>, k: string)
    requires k in Sort(MonthKeys(ms))
    ensures k in MonthKeys(ms) && k != "" && Group(ms, k) != []
  {
    assert multiset(Sort(MonthKeys(ms)))[k] > 0;
    assert k in set x | x in MonthKeys(ms);
    GroupOfKey(ms, k);
  }

  /** Grouping loses no dated memory and invents none: the group sizes over the keys add up to
      the number of memories with a non-empty `Monat`. */
  function SumOfCounts(ms: seq<Record>, keys: seq<string>): nat
    decreases |keys|
  {
    if keys == [] then 0
    else SumOfCounts(ms, keys[..|keys| - 1]) + |Group(ms, keys[|keys| - 1])|
  }

  /** The number of memories with a non-empty `Monat`. */
  function DatedCount(ms: seq<Record>): nat
    decreases |ms|
  {
    if ms == [] then 0
    else DatedCount(ms[..|ms| - 1]) + (if Get(ms[|ms| - 1], MonthColumn) != "" then 1 else 0)
  }

  lemma {:induction false} SumOfCountsNoRecords(keys: seq<string>)
    ensures SumOfCounts([], keys) == 0
    decreases |keys|
  {
    if keys != [] {
      SumOfCountsNoRecords(keys[..|keys| - 1]);
    }
  }

  /** One more memory adds one to the count of its own key, however often that key is listed. */
  lemma {:induction false} SumOfCountsSnoc(init: seq<Record>, last: Record, keys: seq<string>)
    requires "" !in keys
    ensures SumOfCounts(init + [last], keys) == SumOfCounts(init, keys)
      + (if Get(last, MonthColumn) != "" then multiset(keys)[Get(last, MonthColumn)] else 0)
    decreases |keys|
  {
    var ms := init + [last];
    assert ms[..|ms| - 1] == init;
    if keys != [] {
      var front, k := keys[..|keys| - 1], keys[|keys| - 1];
      assert keys == front + [k];
      SumOfCountsSnoc(init, last, front);
      GetMatches(last, MonthColumn, k);
    }
  }

  lemma {:induction false} CountsAddUp(ms: seq<Record>, keys: seq<string>)
    requires "" !in keys
    requires forall i :: 0 <= i < |ms| && Get(ms[i], MonthColumn) != "" ==> multiset(keys)[Get(ms[i], MonthColumn)] == 1
    ensures SumOfCounts(ms, keys) == DatedCount(ms)
    decreases |ms|
  {
    if ms == [] {
      SumOfCountsNoRecords(keys);
    } else {
      var init, last := ms[..|ms| - 1], ms[|ms| - 1];
      assert ms == init + [last];
      assert forall i :: 0 <= i < |init| ==> init[i] == ms[i];
      CountsAddUp(init, keys);
      SumOfCountsSnoc(init, last, keys);
    }
  }

  /** No key is listed twice: a distinct list counts each member once. */
  lemma {:induction false} DistinctMultiplicity(keys: seq<string>, k: string)
    requires Distinct(keys) && k in keys
    ensures multiset(keys)[k] == 1
    decreases |keys|
  {
    var front, last := keys[..|keys| - 1], keys[|keys| - 1];
    assert keys == front + [last];
    if k == last {
      assert k !in front;
    } else {
      DistinctMultiplicity(front, k);
    }
  }

  /** The per-month counts, visited in sorted key order as both yearly summaries do, add up to
      the number of memories with a month; and the number of active months is the number of
      distinct non-empty `Monat` values. */
  lemma MonthCountsAddUp(ms: seq<Record>)
    ensures SumOfCounts(ms, Sort(MonthKeys(ms))) == DatedCount(ms)
    ensures |MonthKeys(ms)| == |MonthValues(ms) - {""}|
  {
    var keys := MonthKeys(ms);
    var sorted := Sort(keys);
    assert "" !in keys;
    assert "" !in sorted by {
      assert multiset(sorted)[""] == multiset(keys)[""] == 0;
    }
    forall i | 0 <= i < |ms| && Get(ms[i], MonthColumn) != ""
      ensures multiset(sorted)[Get(ms[i], MonthColumn)] == 1
    {
      var k := Get(ms[i], MonthColumn);
      assert k in MonthValues(ms) - {""};
      assert k in (set x | x in keys);
      DistinctMultiplicity(keys, k);
    }
    CountsAddUp(ms, sorted);
    DistinctCard(keys);
  }

  // ---------------------------------------------------------------------------
  // Yearly summaries

  /** The length of a memory's enhanced text, the measure `max` compares. */
  function TextLength(m: Record): nat {
    |Get(m, EnhancedColumn)|
  }

  /** Where `max(group, key=...)` lands: a longest text, the first one among equally long. */
  function LongestIndex(g: seq<Record>): (i: nat)
    requires g != []
    ensures i < |g|
    ensures forall j :: 0 <= j < |g| ==> TextLength(g[j]) <= TextLength(g[i])
    ensures forall j :: 0 <= j < i ==> TextLength(g[j]) < TextLength(g[i])
    decreases |g|
  {
    if |g| == 1 then 0
    else
      var k := LongestIndex(g[..|g| - 1]);
      if TextLength(g[|g| - 1]) > TextLength(g[k]) then |g| - 1 else k
  }

  /** The highlight of a month: its longest enhanced text, cut at 147 characters plus "...". */
  function Highlight(g: seq<Record>): string {
    if g == [] then "" else Truncate(Get(g[LongestIndex(g)], EnhancedColumn), 147)
  }

  /** Every listed key has a month number (none of the `int` conversions raises). */
  predicate Numbered(keys: seq<string>) {
    forall k :: k in keys ==> MonthNumber(k).Some?
  }

  function HighlightLine(ms: seq<Record>, key: string): string
    requires MonthNumber(key).Some?
  {
    MonthName(MonthNames, MonthNumber(key).value) + ": " + Highlight(Group(ms, key))
  }

  /** The highlights the yearly prompt lists, one per key in the given order. */
  function Highlights(ms: seq<Record>, keys: seq<string>): (r: seq<string>)
    requires Numbered(keys)
    ensures |r| == |keys|
    ensures forall i :: 0 <= i < |keys| ==> keys[i] in keys && r[i] == HighlightLine(ms, keys[i])
    decreases |keys|
  {
    if keys == [] then []
    else
      var init := keys[..|keys| - 1];
      assert forall i :: 0 <= i < |init| ==> init[i] == keys[i];
      Highlights(ms, init) + [HighlightLine(ms, keys[|keys| - 1])]
  }

  /** One line of the yearly statistics. */
  function StatsLine(key: string, count: nat): string
    requires MonthNumber(key).Some?
  {
    "• " + MonthName(MonthAbbreviations, MonthNumber(key).value) + ": " + IntToString(count) + " Erinnerungen\n"
  }

  function StatsLines(ms: seq<Record>, keys: seq<string>): (r: seq<string>)
    requires Numbered(keys)
    ensures |r| == |keys|
    decreases |keys|
  {
    if keys == [] then []
    else StatsLines(ms, keys[..|keys| - 1]) + [StatsLine(keys[|keys| - 1], |Group(ms, keys[|keys| - 1])|)]
  }

  /** Line `i` of the statistics is the abbreviated month of key `i` with the size of its group. */
  lemma {:induction false} StatsLinesAt(ms: seq<Record>, keys: seq<string>, i: nat)
    requires Numbered(keys) && i < |keys|
    ensures keys[i] in keys && StatsLines(ms, keys)[i] == StatsLine(keys[i], |Group(ms, keys[i])|)
    decreases |keys|
  {
    var init := keys[..|keys| - 1];
    assert StatsLines(ms, keys) == StatsLines(ms, init) + [StatsLine(keys[|keys| - 1], |Group(ms, keys[|keys| - 1])|)];
    if i < |init| {
      assert init[i] == keys[i];
      StatsLinesAt(ms, init, i);
    }
  }

  const YearlyTitle := "📊 **Jahres-Zusammenfassung "
  const ActiveOpening := "**\n📅 **"
  /** The words after the number of memories and after the number of months, in the fallback
      yearly summary and in the one around the model's answer. */
  const SimpleYearlyCount := " Erinnerungen gesammelt"
  const SimpleYearlySection := " aktive Monate**\n\n📈 **Erinnerungen pro Monat:**\n"
  const YearlyCount := " kostbare Erinnerungen gesammelt"
  const YearlySection := " aktive Monate**\n\n✨ **Dein Jahr im Rückblick:**\n\n"

  /** The heading of a yearly summary: the year, the number of memories followed by
      `countWording`, the number of active months followed by `section`. */
  function YearlyHead(year: int, count: nat, active: nat, countWording: string, section: string): (r: string)
    ensures |r| > 0 && r[0] == '📊'
    ensures IsSubstring(IntToString(year), r) && IsSubstring(IntToString(count), r)
    ensures IsSubstring(IntToString(active), r)
  {
    var tail := countWording + ActiveOpening + IntToString(active) + section;
    var rest := CountOpening + IntToString(count) + tail;
    SubstringOfConcat(YearlyTitle, IntToString(year), rest);
    SubstringOfConcat(CountOpening, IntToString(count), tail);
    SubstringOfConcat(countWording + ActiveOpening, IntToString(active), section);
    SubstringOfSuffix(YearlyTitle + IntToString(year), rest);
    SubstringOfSuffix(CountOpening + IntToString(count), tail);
    SubstringTransitive(IntToString(count), rest, YearlyTitle + IntToString(year) + rest);
    SubstringTransitive(IntToString(active), tail, rest);
    SubstringTransitive(IntToString(active), rest, YearlyTitle + IntToString(year) + rest);
    YearlyTitle + IntToString(year) + rest
  }

  const YearlyStatsTitle := "\n\n📈 **Erinnerungen pro Monat:**\n"
  const YearlyClosing := "\n🌟 Ein ganzes Jahr voller Liebe, Lachen und unvergesslicher Momente mit deiner Tochter!"

  /** The label of a key in the fallback statistics: the piece after the first `-`, or the key. */
  function KeyLabel(key: string): (r: string)
    ensures '-' !in key ==> r == key
    ensures '-' in key ==> '-' !in r && |r| < |key|
  {
    if '-' in key then SecondField(key, '-') else key
  }

  /** A key as the store writes it is labelled with its two-digit month. */
  lemma KeyLabelOfKey(year: nat, month: nat)
    ensures KeyLabel(IntToString(year) + "-" + Pad2(month)) == Pad2(month)
  {
    KeyFields(year, month);
  }

  function SimpleStatsLine(key: string, count: nat): string {
    "• " + KeyLabel(key) + ": " + IntToString(count) + " Erinnerungen\n"
  }

  function SimpleStatsLines(ms: seq<Record>, keys: seq<string>): (r: seq<string>)
    ensures |r| == |keys|
    ensures forall i :: 0 <= i < |keys| ==> r[i] == SimpleStatsLine(keys[i], |Group(ms, keys[i])|)
    decreases |keys|
  {
    if keys == [] then []
    else SimpleStatsLines(ms, keys[..|keys| - 1]) + [SimpleStatsLine(keys[|keys| - 1], |Group(ms, keys[|keys| - 1])|)]
  }

  const SimpleYearlyClosing := "\n💝 Ein ganzes Jahr voller wundervoller Momente mit deiner Tochter!"

  /** The yearly summary without the language model: the year, then the count of every month
      in sorted key order. */
  function SimpleYearly(ms: seq<Record>, year: int): (r: string)
    ensures |r| > 0 && r[0] == '📊'
    ensures IsSubstring(IntToString(year), r)
    ensures IsSubstring(Concat(SimpleStatsLines(ms, Sort(MonthKeys(ms)))), r)
  {
    var keys := MonthKeys(ms);
    var head, stats := YearlyHead(year, |ms|, |keys|, SimpleYearlyCount, SimpleYearlySection), Concat(SimpleStatsLines(ms, Sort(keys)));
    SubstringOfConcat(head, stats, SimpleYearlyClosing);
    SubstringOfPrefix(head, stats, SimpleYearlyClosing);
    SubstringTransitive(IntToString(year), head, head + stats + SimpleYearlyClosing);
    head + stats + SimpleYearlyClosing
  }

  /** What `generate_yearly_summary` asks the language model, if anything: nothing for an empty
      list or when a month number does not parse. */
  function YearlyRequest(ms: seq<Record>, year: int): (r: Option<AiRequest>)
    ensures ms == [] ==> r.None?
    ensures r.Some? ==>
      && r.value.YearlyPrompt? && r.value.year == year && r.value.total == |ms|
      && r.value.activeMonths == |MonthKeys(ms)| && |r.value.highlights| == |MonthKeys(ms)|
  {
    var keys := MonthKeys(ms);
    var sorted := Sort(keys);
    assert |multiset(sorted)| == |multiset(keys)|;
    if ms == [] || !Numbered(sorted) then None
    else Some(YearlyPrompt(year, Highlights(ms, sorted), |ms|, |keys|))
  }

  /** The yearly summary around the model's answer: heading, stripped answer, counts per month
      in sorted key order. */
  function YearlyAnswered(ms: seq<Record>, year: int, answer: string): (r: string)
    requires Numbered(Sort(MonthKeys(ms)))
    ensures |r| > 0 && r[0] == '📊'
    ensures IsSubstring(IntToString(year), r) && IsSubstring(IntToString(|ms|), r)
    ensures IsSubstring(Strip(answer, Whitespace), r) && IsSubstring(Concat(StatsLines(ms, Sort(MonthKeys(ms)))), r)
  {
    var keys := MonthKeys(ms);
    var head := YearlyHead(year, |ms|, |keys|, YearlyCount, YearlySection);
    var stats := Concat(StatsLines(ms, Sort(keys)));
    SubstringOfFive(head, Strip(answer, Whitespace), YearlyStatsTitle, stats, YearlyClosing);
    SubstringTransitive(IntToString(year), head, head + Strip(answer, Whitespace) + YearlyStatsTitle + stats + YearlyClosing);
    SubstringTransitive(IntToString(|ms|), head, head + Strip(answer, Whitespace) + YearlyStatsTitle + stats + YearlyClosing);
    head + Strip(answer, Whitespace) + YearlyStatsTitle + stats + YearlyClosing
  }

  /** `generate_yearly_summary`. `reply` is the model's answer (`None`: the call raised). Every
      outcome names its year and is headed by the calendar or the statistics marker. */
  function YearlySummary(ms: seq<Record>, year: int, reply: Option<string>): (r: string)
    ensures |r| > 0 && (r[0] == '📅' || r[0] == '📊')
    ensures IsSubstring(IntToString(year), r)
  {
    if ms == [] then EmptyYearly(year)
    else if !Numbered(Sort(MonthKeys(ms))) || reply.None? then SimpleYearly(ms, year)
    else YearlyAnswered(ms, year, reply.value)
  }

  /** The empty-year template comes back exactly for an empty list; memories without any month
      still give a statistics summary. */
  lemma YearlyEmptyExactly(ms: seq<Record>, year: int, reply: Option<string>)
    ensures var r := YearlySummary(ms, year, reply);
      (r[0] == '📅' <==> ms == []) && (r == EmptyYearly(year) <==> ms == [])
  {
  }

  /** A key that does not parse sends the yearly summary to the fallback, whatever the model
      would answer, and nothing is asked. */
  lemma UnparsableKeyFallsBack(ms: seq<Record>, year: int, reply: Option<string>, i: nat)
    requires i < |ms| && Get(ms[i], MonthColumn) != "" && MonthNumber(Get(ms[i], MonthColumn)).None?
    ensures YearlySummary(ms, year, reply) == SimpleYearly(ms, year)
    ensures YearlyRequest(ms, year).None?
  {
    var k := Get(ms[i], MonthColumn);
    assert k in MonthValues(ms) - {""};
    assert k in (set x | x in MonthKeys(ms));
    assert multiset(Sort(MonthKeys(ms)))[k] == multiset(MonthKeys(ms))[k];
    assert k in Sort(MonthKeys(ms));
    assert !Numbered(Sort(MonthKeys(ms)));
  }

  /** Keys written by the store (`f"{year}-{month:02d}"`) always parse, so for such records the
      model is asked exactly when there are memories. */
  lemma StoreKeysAreNumbered(ms: seq<Record>, year: int)
    requires forall i :: 0 <= i < |ms| ==>
      Get(ms[i], MonthColumn) == "" || exists y: nat, m: nat :: Get(ms[i], MonthColumn) == IntToString(y) + "-" + Pad2(m)
    ensures YearlyRequest(ms, year).Some? <==> ms != []
  {
    var keys := MonthKeys(ms);
    var sorted := Sort(keys);
    forall k | k in sorted ensures MonthNumber(k).Some? {
      assert multiset(sorted)[k] == multiset(keys)[k];
      assert k in keys;
      assert k in MonthValues(ms) - {""};
      var i :| 0 <= i < |ms| && Get(ms[i], MonthColumn) == k;
      var y: nat, m: nat :| k == IntToString(y) + "-" + Pad2(m);
      MonthNumberOfKey(y, m);
    }
  }
}
