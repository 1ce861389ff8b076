/** The summary generator as the bot runs it: loops that collect prompt lines, group and count
    memories in dictionaries and build the summary text one `+=` at a time. Each procedure is
    proved to produce exactly the summary that module SummaryFormat specifies. The language
    model's answer is an input (`None` when the call raises). */
module SummaryGenerator {
  import opened PyText
  import opened Memories
  import opened SummaryFormat

  // ---------------------------------------------------------------------------
  // One loop step at a time

  lemma MemoryTextsStep(ms: seq<Record>, i: nat)
    requires i < |ms|
    ensures MemoryTexts(ms[..i + 1]) == MemoryTexts(ms[..i])
      + (if Get(ms[i], EnhancedColumn) != "" then ["[" + Get(ms[i], DateColumn) + "] " + Get(ms[i], EnhancedColumn)] else [])
  {
    assert ms[..i + 1][..i] == ms[..i];
  }

  /** A line assembled piece by piece from a memory's date part and cut text is its listing line. */
  lemma ListingLineOf(number: int, m: Record, keep: nat, date: string, text: string)
    requires date == DatePart(m) && text == Truncate(Get(m, EnhancedColumn), keep)
    ensures IntToString(number) + ". [" + date + "] " + text + "\n" == ListingLine(number, m, keep)
  {
  }

  lemma MonthKeysStep(ms: seq<Record>, i: nat)
    requires i < |ms|
    ensures var key := Get(ms[i], MonthColumn);
      MonthKeys(ms[..i + 1]) == MonthKeys(ms[..i]) + (if key != "" && key !in MonthKeys(ms[..i]) then [key] else [])
  {
    assert ms[..i + 1][..i] == ms[..i];
  }

  /** How one more memory changes the group of a non-empty key. */
  lemma GroupStep(ms: seq<Record>, i: nat, k: string)
    requires i < |ms| && k != ""
    ensures Get(ms[i], MonthColumn) == k ==> Group(ms[..i + 1], k) == Group(ms[..i], k) + [ms[i]]
    ensures Get(ms[i], MonthColumn) != k ==> Group(ms[..i + 1], k) == Group(ms[..i], k)
  {
    assert ms[..i + 1][..i] == ms[..i];
    GetMatches(ms[i], MonthColumn, k);
  }

  /** A key not seen so far has no memories so far. */
  lemma NewKeyGroup(ms: seq<Record>, k: string)
    requires k != "" && k !in MonthKeys(ms)
    ensures Group(ms, k) == []
  {
    assert k !in (set x | x in MonthKeys(ms));
    GroupOfKey(ms, k);
  }

  /** A sorted key is a key of the dictionary. */
  lemma SortedKeyIsKey(keys: seq<string>, j: nat)
    requires j < |Sort(keys)|
    ensures Sort(keys)[j] in keys
  {
    var k := Sort(keys)[j];
    assert multiset(Sort(keys))[k] > 0;
  }

  lemma HighlightsStep(ms: seq<Record>, keys: seq<string>, j: nat)
    requires j < |keys| && Numbered(keys[..j]) && MonthNumber(keys[j]).Some?
    ensures Numbered(keys[..j + 1])
    ensures Highlights(ms, keys[..j + 1]) == Highlights(ms, keys[..j]) + [HighlightLine(ms, keys[j])]
  {
    assert keys[..j + 1] == keys[..j] + [keys[j]];
  }

  lemma StatsStep(ms: seq<Record>, keys: seq<string>, j: nat)
    requires j < |keys| && Numbered(keys)
    ensures Concat(StatsLines(ms, keys[..j + 1])) == Concat(StatsLines(ms, keys[..j])) + StatsLine(keys[j], |Group(ms, keys[j])|)
  {
    assert keys[..j + 1][..j] == keys[..j];
    ConcatSnoc(StatsLines(ms, keys[..j]), StatsLine(keys[j], |Group(ms, keys[j])|));
  }

  lemma SimpleStatsStep(ms: seq<Record>, keys: seq<string>, j: nat)
    requires j < |keys|
    ensures Concat(SimpleStatsLines(ms, keys[..j + 1])) == Concat(SimpleStatsLines(ms, keys[..j])) + SimpleStatsLine(keys[j], |Group(ms, keys[j])|)
  {
    assert keys[..j + 1][..j] == keys[..j];
    ConcatSnoc(SimpleStatsLines(ms, keys[..j]), SimpleStatsLine(keys[j], |Group(ms, keys[j])|));
  }

  /** The group dictionary holds, for exactly the listed keys, the memories of that month among
      `ms` in input order. */
  ghost predicate Grouped(ms: seq<Record>, keys: seq<string>, groups: map<string, seq<Record>>) {
    && (forall k :: k in groups <==> k in keys)
    && (forall k :: k in groups ==> groups[k] == Group(ms, k))
  }

  /** `months_data[key] = []` for a key not seen so far. */
  lemma OpenGroup(ms: seq<Record>, keys: seq<string>, groups: map<string, seq<Record>>, key: string)
    requires Grouped(ms, keys, groups) && key != "" && key !in MonthKeys(ms)
    ensures Grouped(ms, keys + [key], groups[key := []])
  {
    NewKeyGroup(ms, key);
  }

  /** `months_data[key].append(memory)` for the memory at position `i`. */
  lemma AppendToGroup(ms: seq<Record>, i: nat, keys: seq<string>, groups: map<string, seq<Record>>)
    requires i < |ms| && Get(ms[i], MonthColumn) != "" && Get(ms[i], MonthColumn) in groups
    requires Grouped(ms[..i], keys, groups) && "" !in keys
    ensures var key := Get(ms[i], MonthColumn);
      Grouped(ms[..i + 1], keys, groups[key := groups[key] + [ms[i]]])
  {
    var key := Get(ms[i], MonthColumn);
    var next := groups[key := groups[key] + [ms[i]]];
    forall k | k in next ensures next[k] == Group(ms[..i + 1], k) {
      assert k in keys;
      GroupStep(ms, i, k);
    }
  }

  /** A memory without a month changes no group. */
  lemma SkipUndated(ms: seq<Record>, i: nat, keys: seq<string>, groups: map<string, seq<Record>>)
    requires i < |ms| && Get(ms[i], MonthColumn) == ""
    requires Grouped(ms[..i], keys, groups) && "" !in keys
    ensures Grouped(ms[..i + 1], keys, groups)
  {
    forall k | k in keys ensures Group(ms[..i + 1], k) == Group(ms[..i], k) {
      GroupStep(ms, i, k);
    }
  }

  /** The counts dictionary holds, for exactly the listed keys, the size of that month's group
      among `ms`. */
  ghost predicate Counted(ms: seq<Record>, keys: seq<string>, counts: map<string, nat>) {
    && (forall k :: k in counts <==> k in keys)
    && (forall k :: k in counts ==> counts[k] == |Group(ms, k)|)
  }

  /** `counts[key] = counts.get(key, 0) + 1` for the memory at position `i`. */
  lemma CountStep(ms: seq<Record>, i: nat, keys: seq<string>, counts: map<string, nat>)
    requires i < |ms| && Get(ms[i], MonthColumn) != ""
    requires keys == MonthKeys(ms[..i]) && Counted(ms[..i], keys, counts)
    ensures var key := Get(ms[i], MonthColumn);
      Counted(ms[..i + 1], if key in counts then keys else keys + [key],
              counts[key := (if key in counts then counts[key] else 0) + 1])
  {
    var key := Get(ms[i], MonthColumn);
    var before := if key in counts then counts[key] else 0;
    var next := counts[key := before + 1];
    var nextKeys := if key in counts then keys else keys + [key];
    if key !in counts {
      NewKeyGroup(ms[..i], key);
    }
    assert before == |Group(ms[..i], key)|;
    assert "" !in keys;
    forall k | k in next ensures next[k] == |Group(ms[..i + 1], k)| {
      GroupStep(ms, i, k);
    }
    assert forall k :: k in next <==> k in nextKeys;
  }

  /** A memory without a month changes no count. */
  lemma CountSkip(ms: seq<Record>, i: nat, keys: seq<string>, counts: map<string, nat>)
    requires i < |ms| && Get(ms[i], MonthColumn) == ""
    requires Counted(ms[..i], keys, counts) && "" !in keys
    ensures Counted(ms[..i + 1], keys, counts)
  {
    forall k | k in keys ensures Group(ms[..i + 1], k) == Group(ms[..i], k) {
      GroupStep(ms, i, k);
    }
  }

  /** A dictionary whose keys are exactly a duplicate-free list has that many entries. */
  lemma DictionarySize<V>(m: map<string, V>, keys: seq<string>)
    requires Distinct(keys)
    requires forall k :: k in m <==> k in keys
    ensures |m| == |keys|
  {
    assert m.Keys == set k | k in keys;
    DistinctCard(keys);
  }

  // ---------------------------------------------------------------------------
  // The loops

  /** The listing loop `for i, memory in enumerate(memories[:10], 1)`: appends one line per
      shown memory, its text cut by `text[:keep + 3]` and then to `keep` characters plus "...". */
  method AppendListing(text: string, ms: seq<Record>, keep: nat) returns (r: string)
    ensures r == text + Concat(ListingLines(ms, keep))
  {
    r := text;
    var shown := ms[..Min(10, |ms|)];
    ghost var lines := ListingLines(ms, keep);
    for i := 0 to |shown|
      invariant r == text + Concat(lines[..i])
    {
      var date := BeforeFirst(Get(shown[i], DateColumn), ' ');
      var full := Get(shown[i], EnhancedColumn);
      var enhanced := Prefix(full, keep + 3);
      ghost var head := enhanced;
      if |enhanced| > keep {
        enhanced := enhanced[..keep] + "...";
      }
      TruncateOf(full, keep, head, enhanced);
      assert shown[i] == ms[i];
      var line := IntToString(i + 1) + ". [" + date + "] " + enhanced + "\n";
      ListingLineOf(i + 1, ms[i], keep, date, enhanced);
      ConcatPrefixStep(lines, i);
      AppendAfter(text, Concat(lines[..i]), line, Concat(lines[..i + 1]));
      r := r + line;
    }
    assert lines[..|shown|] == lines;
  }

  /** The grouping loop of `generate_yearly_summary`: a dictionary from each non-empty `Monat`
      to its memories in input order; `keys` is the dictionary's insertion order. */
  method GroupByMonth(ms: seq<Record>) returns (keys: seq<string>, groups: map<string, seq<Record>>)
    ensures keys == MonthKeys(ms)
    ensures forall k :: k in groups <==> k in keys
    ensures |groups| == |keys|
    ensures forall k :: k in groups ==> groups[k] == Group(ms, k)
  {
    keys, groups := [], map[];
    for i := 0 to |ms|
      invariant keys == MonthKeys(ms[..i]) && Grouped(ms[..i], keys, groups)
    {
      var key := Get(ms[i], MonthColumn);
      MonthKeysStep(ms, i);
      if key != "" {
        if key !in groups {
          OpenGroup(ms[..i], keys, groups, key);
          groups := groups[key := []];
          keys := keys + [key];
        }
        AppendToGroup(ms, i, keys, groups);
        groups := groups[key := groups[key] + [ms[i]]];
      } else {
        SkipUndated(ms, i, keys, groups);
      }
    }
    assert ms[..|ms|] == ms;
    DictionarySize(groups, keys);
  }

  /** The counting loop of `_create_simple_yearly_summary`: `counts[key] = counts.get(key, 0) + 1`
      for each non-empty `Monat`. */
  method CountByMonth(ms: seq<Record>) returns (keys: seq<string>, counts: map<string, nat>)
    ensures keys == MonthKeys(ms)
    ensures forall k :: k in counts <==> k in keys
    ensures |counts| == |keys|
    ensures forall k :: k in counts ==> counts[k] == |Group(ms, k)|
  {
    keys, counts := [], map[];
    for i := 0 to |ms|
      invariant keys == MonthKeys(ms[..i]) && Counted(ms[..i], keys, counts)
    {
      var key := Get(ms[i], MonthColumn);
      MonthKeysStep(ms, i);
      if key != "" {
        CountStep(ms, i, keys, counts);
        if key !in counts {
          keys := keys + [key];
        }
        counts := counts[key := (if key in counts then counts[key] else 0) + 1];
      } else {
        CountSkip(ms, i, keys, counts);
      }
    }
    assert ms[..|ms|] == ms;
    DictionarySize(counts, keys);
  }

  /** The highlight loop of `generate_yearly_summary` over the sorted keys. `ok` is false when a
      month number does not parse, where the source's `int` raises. */
  method CollectHighlights(ms: seq<Record>, keys: seq<string>, groups: map<string, seq<Record>>)
    returns (highlights: seq<string>, ok: bool)
    requires forall k :: k in keys ==> k in groups && groups[k] == Group(ms, k) && groups[k] != []
    ensures ok == Numbered(keys)
    ensures ok ==> highlights == Highlights(ms, keys)
  {
    highlights := [];
    for j := 0 to |keys|
      invariant Numbered(keys[..j])
      invariant highlights == Highlights(ms, keys[..j])
    {
      var key := keys[j];
      var monthNumber := MonthNumber(key);
      if monthNumber.None? {
        assert key in keys;
        return highlights, false;
      }
      assert key in keys;
      var line := MonthHighlight(ms, key, groups[key], monthNumber.value);
      HighlightsStep(ms, keys, j);
      highlights := highlights + [line];
    }
    assert keys[..|keys|] == keys;
    ok := true;
  }

  /** One pass of the highlight loop of `generate_yearly_summary`: the month's name and its
      longest text (`max` by length), cut by `[:150]` and then to 147 characters plus "...". */
  method MonthHighlight(ms: seq<Record>, key: string, group: seq<Record>, monthNumber: int)
    returns (line: string)
    requires MonthNumber(key) == Some(monthNumber) && group == Group(ms, key) && group != []
    ensures line == HighlightLine(ms, key)
  {
    var best := group[LongestIndex(group)];
    var text := Get(best, EnhancedColumn);
    var highlight := Prefix(text, 150);
    ghost var head := highlight;
    if |highlight| > 147 {
      highlight := highlight[..147] + "...";
    }
    TruncateOf(text, 147, head, highlight);
    var monthName := MonthName(MonthNames, monthNumber);
    line := monthName + ": " + highlight;
  }

  /** The statistics loop of `generate_yearly_summary`. */
  method AppendStats(text: string, ms: seq<Record>, keys: seq<string>, groups: map<string, seq<Record>>)
    returns (r: string)
    requires Numbered(keys)
    requires forall k :: k in keys ==> k in groups && groups[k] == Group(ms, k)
    ensures r == text + Concat(StatsLines(ms, keys))
  {
    r := text;
    for j := 0 to |keys|
      invariant r == text + Concat(StatsLines(ms, keys[..j]))
    {
      var key := keys[j];
      assert key in keys;
      var monthNumber := MonthNumber(key).value;
      var count := |groups[key]|;
      var monthName := MonthName(MonthAbbreviations, monthNumber);
      var line := "• " + monthName + ": " + IntToString(count) + " Erinnerungen\n";
      assert line == StatsLine(key, |Group(ms, key)|);
      StatsStep(ms, keys, j);
      AppendAfter(text, Concat(StatsLines(ms, keys[..j])), line, Concat(StatsLines(ms, keys[..j + 1])));
      r := r + line;
    }
    assert keys[..|keys|] == keys;
  }

  /** The statistics loop of `_create_simple_yearly_summary`. */
  method AppendSimpleStats(text: string, ms: seq<Record>, keys: seq<string>, counts: map<string, nat>)
    returns (r: string)
    requires forall k :: k in keys ==> k in counts && counts[k] == |Group(ms, k)|
    ensures r == text + Concat(SimpleStatsLines(ms, keys))
  {
    r := text;
    for j := 0 to |keys|
      invariant r == text + Concat(SimpleStatsLines(ms, keys[..j]))
    {
      var key := keys[j];
      assert key in keys;
      var monthLabel := if '-' in key then SecondField(key, '-') else key;
      var line := "• " + monthLabel + ": " + IntToString(counts[key]) + " Erinnerungen\n";
      assert line == SimpleStatsLine(key, |Group(ms, key)|);
      SimpleStatsStep(ms, keys, j);
      AppendAfter(text, Concat(SimpleStatsLines(ms, keys[..j])), line, Concat(SimpleStatsLines(ms, keys[..j + 1])));
      r := r + line;
    }
    assert keys[..|keys|] == keys;
  }

  // ---------------------------------------------------------------------------
  // Monthly summaries

  /** `_create_simple_monthly_summary`. */
  method CreateSimpleMonthlySummary(ms: seq<Record>, year: int, month: int) returns (summary: string)
    ensures summary == SimpleMonthly(ms, year, month)
  {
    summary := MonthlyHead(|ms|, year, month, SimpleMonthlyCount);
    summary := AppendListing(summary, ms, 97);
    ghost var listed := summary;
    if |ms| > 10 {
      summary := summary + MoreLine(|ms|, "Erinnerungen");
    }
    assert summary == listed + MoreLine(|ms|, "Erinnerungen");
    summary := summary + SimpleMonthlyClosing;
  }

  /** The pieces `generate_monthly_summary` appends after the model's answer make up `MonthlyRest`. */
  lemma MonthlyAssembled(intro: string, listed: string, ms: seq<Record>)
    requires listed == intro + MonthlyListingTitle + Concat(ListingLines(ms, 77))
    ensures listed + MoreLine(|ms|, "kostbare Momente") + MonthlyClosing == intro + MonthlyRest(ms)
    ensures |ms| <= 10 ==> listed + MonthlyClosing == intro + MonthlyRest(ms)
  {
    var more := MoreLine(|ms|, "kostbare Momente");
    Regroup(intro, MonthlyListingTitle, Concat(ListingLines(ms, 77)), more, MonthlyClosing);
    if |ms| <= 10 {
      assert more == "";
      assert listed + more == listed;
    }
  }

  /** `generate_monthly_summary`: returns the summary and what the language model is asked. */
  method GenerateMonthlySummary(ms: seq<Record>, year: int, month: int, reply: Option<string>)
    returns (summary: string, request: Option<AiRequest>)
    ensures summary == MonthlySummary(ms, year, month, reply)
    ensures request == MonthlyRequest(ms, year, month)
  {
    if |ms| == 0 {
      summary, request := EmptyMonthly(year, month), None;
      return;
    }
    var texts := CollectMemoryTexts(ms);
    if texts == [] {
      summary, request := EmptyMonthly(year, month), None;
      return;
    }
    request := Some(MonthlyPrompt(Period(year, month), texts));
    match reply
    case None =>
      summary := CreateSimpleMonthlySummary(ms, year, month);
    case Some(content) =>
      summary := AssembleMonthlySummary(ms, year, month, content);
  }

  /** The prompt loop of `generate_monthly_summary`: one line per memory with an enhanced text. */
  method CollectMemoryTexts(ms: seq<Record>) returns (texts: seq<string>)
    ensures texts == MemoryTexts(ms)
  {
    texts := [];
    for i := 0 to |ms|
      invariant texts == MemoryTexts(ms[..i])
    {
      var enhanced := Get(ms[i], EnhancedColumn);
      var date := Get(ms[i], DateColumn);
      if enhanced != "" {
        texts := texts + ["[" + date + "] " + enhanced];
      }
      MemoryTextsStep(ms, i);
    }
    assert ms[..|ms|] == ms;
  }

  /** The part of `generate_monthly_summary` after the model answered `content`. */
  method AssembleMonthlySummary(ms: seq<Record>, year: int, month: int, content: string)
    returns (summary: string)
    ensures summary == MonthlyAnswered(ms, year, month, content)
  {
    var ai := Strip(content, Whitespace);
    var intro := MonthlyHead(|ms|, year, month, MonthlyCount) + ai;
    var listed := AppendListing(intro + MonthlyListingTitle, ms, 77);
    summary := listed;
    if |ms| > 10 {
      summary := summary + MoreLine(|ms|, "kostbare Momente");
    }
    summary := summary + MonthlyClosing;
    MonthlyAssembled(intro, listed, ms);
  }

  // ---------------------------------------------------------------------------
  // Yearly summaries

  /** `_create_simple_yearly_summary`: counts per month, then one line per key in sorted order. */
  method CreateSimpleYearlySummary(ms: seq<Record>, year: int) returns (summary: string)
    ensures summary == SimpleYearly(ms, year)
  {
    var keys, counts := CountByMonth(ms);
    summary := YearlyHead(year, |ms|, |counts|, SimpleYearlyCount, SimpleYearlySection);
    var sorted := Sort(keys);
    forall k | k in sorted ensures k in keys {
      assert multiset(sorted)[k] > 0;
    }
    summary := AppendSimpleStats(summary, ms, sorted, counts);
    summary := summary + SimpleYearlyClosing;
  }

  /** `generate_yearly_summary`: groups by month, takes each month's highlight in sorted key
      order, asks the language model, then lists the counts per month. A key whose month does
      not parse raises, and the fallback summary is returned instead. */
  method GenerateYearlySummary(ms: seq<Record>, year: int, reply: Option<string>)
    returns (summary: string, request: Option<AiRequest>)
    ensures summary == YearlySummary(ms, year, reply)
    ensures request == YearlyRequest(ms, year)
  {
    if |ms| == 0 {
      summary, request := EmptyYearly(year), None;
      return;
    }
    var keys, groups := GroupByMonth(ms);
    var sorted := Sort(keys);
    forall k | k in sorted ensures k in groups && groups[k] == Group(ms, k) && groups[k] != [] {
      SortedKeyHasGroup(ms, k);
    }
    var highlights, ok := CollectHighlights(ms, sorted, groups);
    if !ok {
      // `int` raised: the handler returns the fallback summary
      summary := CreateSimpleYearlySummary(ms, year);
      request := None;
      return;
    }
    request := Some(YearlyPrompt(year, highlights, |ms|, |groups|));
    match reply
    case None =>
      summary := CreateSimpleYearlySummary(ms, year);
    case Some(content) =>
      summary := AssembleYearlySummary(ms, year, content, sorted, groups);
  }

  /** The part of `generate_yearly_summary` after the model answered `content`. */
  method AssembleYearlySummary(ms: seq<Record>, year: int, content: string, sorted: seq<string>,
                               groups: map<string, seq<Record>>)
    returns (summary: string)
    requires sorted == Sort(MonthKeys(ms)) && Numbered(sorted) && |groups| == |MonthKeys(ms)|
    requires forall k :: k in sorted ==> k in groups && groups[k] == Group(ms, k)
    ensures summary == YearlyAnswered(ms, year, content)
  {
    var ai := Strip(content, Whitespace);
    summary := YearlyHead(year, |ms|, |groups|, YearlyCount, YearlySection) + ai + YearlyStatsTitle;
    summary := AppendStats(summary, ms, sorted, groups);
    summary := summary + YearlyClosing;
  }
}
