/**
  lib/getRanking.py: reading the category ranking shown on an app's overview page, and
  the loop that visits one page per URL. The ranking text has the shape
  `#<digits>\n<category> - <metric>`, read with the regular expression
  `#(\d+)\n(.+?) - (.+)` anchored at the start; here the match is written out with
  string functions. The browser is replaced by what it observes on each page.
 */
module Ranking {
  import opened Wrappers
  import opened Strings
  import opened JsonValues
  import opened Chunking

  /** A parsed ranking: the number after '#', and the two trimmed halves of the next line. */
  datatype RankInfo = RankInfo(rank: nat, category: string, metric: string)

  /** The length of the run of digits that `s` starts with. */
  function DigitRun(s: string): (n: nat)
    ensures n <= |s| && AllDigits(s[..n])
    ensures n < |s| ==> !IsDigit(s[n])
    decreases |s|
  {
    if |s| > 0 && IsDigit(s[0]) then
      var m := DigitRun(s[1..]);
      assert s[..m + 1] == [s[0]] + s[1..][..m];
      m + 1
    else 0
  }

  /** The text before the first '\n' (what `.` can match in a row). */
  function FirstLine(s: string): (line: string)
    ensures '\n' !in line && StartsWith(s, line)
    ensures |line| < |s| ==> s[|line|] == '\n'
    decreases |s|
  {
    if |s| == 0 || s[0] == '\n' then []
    else
      var l := FirstLine(s[1..]);
      assert ([s[0]] + l)[1..] == l;
      [s[0]] + l
  }

  /** `(.+?) - (.+)` can split `line` at `k`: one character or more before " - ", one or more after. */
  predicate SeparatorAt(line: string, k: nat) {
    1 <= k && OccursAt(line, " - ", k) && k + 3 < |line|
  }

  /** The lazy group stops at the first place, from `from` on, where the rest can match. */
  function FirstSeparator(line: string, from: nat): (r: Option<nat>)
    ensures r.Some? ==> from <= r.value && SeparatorAt(line, r.value)
    ensures r.Some? ==> forall k: nat :: from <= k < r.value ==> !SeparatorAt(line, k)
    ensures r.None? ==> forall k: nat :: from <= k ==> !SeparatorAt(line, k)
    decreases |line| - from
  {
    if from + 3 >= |line| then None
    else if SeparatorAt(line, from) then Some(from)
    else FirstSeparator(line, from + 1)
  }

  /** The second line of the ranking text split into its trimmed category and metric. */
  function RankLine(rank: nat, line: string): (r: Option<RankInfo>)
    ensures r.Some? ==> r.value.rank == rank
  {
    match FirstSeparator(line, 1)
    case None => None
    case Some(k) => Some(RankInfo(rank, Strip(line[..k]), Strip(line[k + 3..])))
  }

  /** `parse_ranking_info`: None when the text does not match. */
  function ParseRankingInfo(text: string): Option<RankInfo> {
    if |text| == 0 || text[0] != '#' then None
    else
      var n := DigitRun(text[1..]);
      if n == 0 || n + 1 >= |text| || text[n + 1] != '\n' then None
      else
        assert text[1..][..n] == text[1..n + 1];
        RankLine(DigitsValue(text[1..n + 1]), FirstLine(text[n + 2..]))
  }

  /** `text` opens with '#', `n` digits (one or more) and a newline. */
  predicate HeaderOf(text: string, n: nat) {
    1 <= n && n + 1 < |text| && text[0] == '#' && AllDigits(text[1..n + 1]) && text[n + 1] == '\n'
  }

  /** A match needs '#', one digit or more and a newline at the very start; the rank is the value of those digits. */
  lemma ParseNeedsHeader(text: string)
    requires ParseRankingInfo(text).Some?
    ensures exists n: nat :: HeaderOf(text, n) && ParseRankingInfo(text).value.rank == DigitsValue(text[1..n + 1])
  {
    var n := DigitRun(text[1..]);
    assert text[1..][..n] == text[1..n + 1];
    assert HeaderOf(text, n);
  }

  lemma DigitRunOf(digits: string, rest: string)
    requires AllDigits(digits)
    requires |rest| > 0 && !IsDigit(rest[0])
    ensures DigitRun(digits + rest) == |digits|
    decreases |digits|
  {
    if |digits| > 0 {
      assert (digits + rest)[1..] == digits[1..] + rest;
      DigitRunOf(digits[1..], rest);
    }
  }

  /**
    After the header `#<digits>\n`, the rank is the value of the digits and the rest is
    read from the first line that follows; nothing after that line matters.
   */
  lemma ParseHeader(digits: string, rest: string)
    requires |digits| >= 1 && AllDigits(digits)
    ensures ParseRankingInfo("#" + digits + "\n" + rest) == RankLine(DigitsValue(digits), FirstLine(rest))
  {
    var text := "#" + digits + "\n" + rest;
    assert text[1..] == digits + ("\n" + rest);
    DigitRunOf(digits, "\n" + rest);
    assert text[1..|digits| + 1] == digits;
    assert text[|digits| + 2..] == rest;
  }

  lemma {:induction false} FirstLineOf(line: string, tail: string)
    requires '\n' !in line
    requires tail == [] || tail[0] == '\n'
    ensures FirstLine(line + tail) == line
    decreases |line|
  {
    var s := line + tail;
    if |line| > 0 {
      assert s[0] == line[0] && line[0] in line;
      assert s[1..] == line[1..] + tail;
      assert '\n' !in line[1..] by {
        forall c | c in line[1..] ensures c in line {
        }
      }
      FirstLineOf(line[1..], tail);
      assert FirstLine(s) == [s[0]] + FirstLine(s[1..]);
      assert [line[0]] + line[1..] == line;
    } else {
      assert s == tail;
    }
  }

  /** Later lines are ignored: text after the second line's newline never changes the result. */
  lemma ParseIgnoresLaterLines(digits: string, line: string, rest: string)
    requires |digits| >= 1 && AllDigits(digits) && '\n' !in line
    ensures ParseRankingInfo("#" + digits + "\n" + line + "\n" + rest) == ParseRankingInfo("#" + digits + "\n" + line)
  {
    assert "#" + digits + "\n" + line + "\n" + rest == "#" + digits + "\n" + (line + ("\n" + rest));
    ParseHeader(digits, line + ("\n" + rest));
    ParseHeader(digits, line);
    FirstLineOf(line, "\n" + rest);
    FirstLineOf(line, []);
    assert line + [] == line;
  }

  /**
    The second line splits at the first " - " that has text on both sides: the category is
    the trimmed text before it and the metric the trimmed text after it; with no such
    " - " there is no match.
   */
  lemma RankLineSpec(rank: nat, line: string)
    ensures RankLine(rank, line).None? <==> forall k: nat :: !SeparatorAt(line, k)
    ensures RankLine(rank, line).Some? ==>
      exists k: nat :: SeparatorAt(line, k) && (forall j: nat :: j < k ==> !SeparatorAt(line, j))
        && RankLine(rank, line).value == RankInfo(rank, Strip(line[..k]), Strip(line[k + 3..]))
  {
    match FirstSeparator(line, 1)
    case None =>
    case Some(k) =>
      assert forall j: nat :: j < k ==> !SeparatorAt(line, j);
  }

  lemma FirstSeparatorIs(line: string, from: nat, k: nat)
    requires from <= k && SeparatorAt(line, k)
    requires forall j: nat :: from <= j < k ==> !SeparatorAt(line, j)
    ensures FirstSeparator(line, from) == Some(k)
    decreases k - from
  {
    if from < k {
      FirstSeparatorIs(line, from + 1, k);
    }
  }

  lemma OccursInLonger(s: string, p: string, m: nat, j: nat)
    requires m <= |s| && j + |p| <= m
    requires OccursAt(s, p, j)
    ensures OccursAt(s[..m], p, j)
  {
    assert s[..m][j..j + |p|] == s[j..j + |p|];
  }

  /**
    Round trip: the ranking text the page shows for rank `digits`, a category and a metric
    (each trimmed, non-empty and on one line, the category holding no " - " of its own, even
    against the separator) reads back as exactly that rank, category and metric, whatever
    lines follow.
   */
  lemma ParseRoundTrip(digits: string, category: string, metric: string, tail: string)
    requires |digits| >= 1 && AllDigits(digits)
    requires category != [] && Bare(category, IsSpace) && '\n' !in category
    requires metric != [] && Bare(metric, IsSpace) && '\n' !in metric
    requires !Contains(category + " -", " - ")
    requires tail == [] || tail[0] == '\n'
    ensures ParseRankingInfo("#" + digits + "\n" + category + " - " + metric + tail)
            == Some(RankInfo(DigitsValue(digits), category, metric))
  {
    var line := category + " - " + metric;
    RoundTripText(digits, category, metric, tail);
    ParseHeader(digits, line + tail);
    NoNewline(category, metric);
    FirstLineOf(line, tail);
    CategorySplit(category, metric);
    TrimBare(category, IsSpace);
    TrimBare(metric, IsSpace);
  }

  lemma RoundTripText(digits: string, category: string, metric: string, tail: string)
    ensures "#" + digits + "\n" + category + " - " + metric + tail == "#" + digits + "\n" + ((category + " - " + metric) + tail)
  {
  }

  lemma NoNewline(category: string, metric: string)
    requires '\n' !in category && '\n' !in metric
    ensures '\n' !in category + " - " + metric
  {
  }

  /** The first separator of `category + " - " + metric` is the one after the category. */
  lemma CategorySplit(category: string, metric: string)
    requires category != [] && metric != []
    requires !Contains(category + " -", " - ")
    ensures var line := category + " - " + metric;
      FirstSeparator(line, 1) == Some(|category|) && line[..|category|] == category && line[|category| + 3..] == metric
  {
    var line := category + " - " + metric;
    var k := |category|;
    assert line[k..k + 3] == " - ";
    assert SeparatorAt(line, k);
    assert line[..k + 2] == category + " -";
    forall j: nat | 1 <= j < k
      ensures !SeparatorAt(line, j)
    {
      if SeparatorAt(line, j) {
        OccursInLonger(line, " - ", k + 2, j);
        assert false;
      }
    }
    FirstSeparatorIs(line, 1, k);
  }

  // ---------------------------------------------------------------------------
  // Ranking records

  /** `empty_rank`: 'NA' for the rank and the category, and no metric. */
  function EmptyRank(): Json {
    JObject([("rank", JString("NA")), ("category", JString("NA"))])
  }

  /** The dict `parse_ranking_info` returns on a match. */
  function RankRecord(r: RankInfo): Json {
    JObject([("rank", JNumber(r.rank)), ("category", JString(r.category)), ("metric", JString(r.metric))])
  }

  /** A parsed record has exactly the keys rank, category and metric; `empty_rank` exactly rank and category, both 'NA'. */
  lemma RecordKeys(r: RankInfo)
    ensures KeySet(RankRecord(r).entries) == {"rank", "category", "metric"}
    ensures Lookup(RankRecord(r).entries, "rank") == Some(JNumber(r.rank))
    ensures Lookup(RankRecord(r).entries, "category") == Some(JString(r.category))
    ensures Lookup(RankRecord(r).entries, "metric") == Some(JString(r.metric))
    ensures KeySet(EmptyRank().entries) == {"rank", "category"}
    ensures Lookup(EmptyRank().entries, "rank") == Some(JString("NA"))
    ensures Lookup(EmptyRank().entries, "category") == Some(JString("NA"))
  {
    var e := RankRecord(r).entries;
    assert e[0].0 == "rank" && e[1].0 == "category" && e[2].0 == "metric";
    assert KeySet(e) == {e[0].0, e[1].0, e[2].0};
    var z := EmptyRank().entries;
    assert KeySet(z) == {z[0].0, z[1].0};
  }

  // ---------------------------------------------------------------------------
  // get_ranking

  /**
    What the browser finds on one overview page: how many `div[role="listitem"]` there are,
    and the text of the ranking span inside item 13, or None when looking it up raises.
   */
  datatype Page = Page(itemCount: nat, itemText: Option<string>)

  /** Loading a URL either shows a page or raises, which ends the loop. */
  datatype Visit = Loaded(page: Page) | Failed

  /** The entry appended for one page. */
  function EntryFor(page: Page): Json {
    if page.itemCount != 15 then EmptyRank()
    else match page.itemText
      case None => EmptyRank()
      case Some(t) =>
        match ParseRankingInfo(t)
        case None => EmptyRank()
        case Some(r) => RankRecord(r)
  }

  /** The entry is the parsed ranking only for a page with exactly 15 items whose item 13 reads as a ranking. */
  lemma EntryForSpec(page: Page)
    ensures EntryFor(page) != EmptyRank() <==>
      page.itemCount == 15 && page.itemText.Some? && ParseRankingInfo(page.itemText.value).Some?
    ensures EntryFor(page) != EmptyRank() ==> EntryFor(page) == RankRecord(ParseRankingInfo(page.itemText.value).value)
    ensures HasKey(EntryFor(page).entries, "rank") && HasKey(EntryFor(page).entries, "category")
  {
    if page.itemCount == 15 && page.itemText.Some? && ParseRankingInfo(page.itemText.value).Some? {
      var r := ParseRankingInfo(page.itemText.value).value;
      RecordKeys(r);
      assert |RankRecord(r).entries| != |EmptyRank().entries|;
      HasKeyIff(RankRecord(r).entries, "rank");
      HasKeyIff(RankRecord(r).entries, "category");
    } else {
      RecordKeys(RankInfo(0, "", ""));
      HasKeyIff(EmptyRank().entries, "rank");
      HasKeyIff(EmptyRank().entries, "category");
    }
  }

  /** The entries for the URLs in order, up to the first one whose visit raises. */
  function CollectFrom(urls: seq<string>, visit: string -> Visit): seq<Json>
    decreases |urls|
  {
    if |urls| == 0 then []
    else match visit(urls[0])
      case Failed => []
      case Loaded(p) => [EntryFor(p)] + CollectFrom(urls[1..], visit)
  }

  /**
    What `get_ranking` returns. An exception in the login or on a page sends control to the
    `except` clause, whose "Ranking not found" is overridden by the `return data` in
    `finally`: the list collected so far comes back in every case.
   */
  function Collected(urls: seq<string>, loginOk: bool, visit: string -> Visit): seq<Json> {
    if loginOk then CollectFrom(urls, visit) else []
  }

  /**
    One entry per URL visited, in URL order, and none after the first failure: the entry
    for `urls[j]` is the rule applied to its page; when every page loads, there is one
    entry per URL.
   */
  lemma {:induction false} CollectFromSpec(urls: seq<string>, visit: string -> Visit)
    ensures |CollectFrom(urls, visit)| <= |urls|
    ensures forall j :: 0 <= j < |CollectFrom(urls, visit)| ==>
      visit(urls[j]).Loaded? && CollectFrom(urls, visit)[j] == EntryFor(visit(urls[j]).page)
    ensures |CollectFrom(urls, visit)| < |urls| ==> visit(urls[|CollectFrom(urls, visit)|]).Failed?
    decreases |urls|
  {
    if |urls| > 0 && visit(urls[0]).Loaded? {
      CollectFromSpec(urls[1..], visit);
      var rest := CollectFrom(urls[1..], visit);
      var all := CollectFrom(urls, visit);
      assert all == [EntryFor(visit(urls[0]).page)] + rest;
      forall j | 0 < j < |all|
        ensures visit(urls[j]).Loaded? && all[j] == EntryFor(visit(urls[j]).page)
      {
        assert all[j] == rest[j - 1];
        assert urls[1..][j - 1] == urls[j];
      }
      if |all| < |urls| {
        assert urls[1..][|rest|] == urls[|all|];
      }
    }
  }

  /** Every page loads after a successful login: exactly one entry per URL. */
  lemma CollectedAll(urls: seq<string>, visit: string -> Visit)
    requires forall j :: 0 <= j < |urls| ==> visit(urls[j]).Loaded?
    ensures |Collected(urls, true, visit)| == |urls|
  {
    CollectFromSpec(urls, visit);
  }

  /** One step of the page loop: a page that raises ends the list, a loaded one adds its entry. */
  lemma CollectFromStep(urls: seq<string>, i: nat, visit: string -> Visit)
    requires i < |urls|
    ensures visit(urls[i]).Failed? ==> CollectFrom(urls[i..], visit) == []
    ensures visit(urls[i]).Loaded? ==>
      CollectFrom(urls[i..], visit) == [EntryFor(visit(urls[i]).page)] + CollectFrom(urls[i + 1..], visit)
  {
    assert urls[i..][1..] == urls[i + 1..];
  }

  /** The loop `for url in urls:` of `get_ranking`, ended by the first page that raises. */
  method GetRanking(urls: seq<string>, loginOk: bool, visit: string -> Visit) returns (data: seq<Json>)
    ensures data == Collected(urls, loginOk, visit)
  {
    data := [];
    if !loginOk {
      return;
    }
    var i := 0;
    assert urls[0..] == urls;
    while i < |urls|
      invariant i <= |urls|
      invariant data + CollectFrom(urls[i..], visit) == CollectFrom(urls, visit)
      decreases |urls| - i
    {
      var v := visit(urls[i]);
      CollectFromStep(urls, i, visit);
      if v.Failed? {
        assert data + [] == data;
        return;
      }
      var entry := EntryFor(v.page);
      AppendAssoc(data, entry, CollectFrom(urls[i + 1..], visit));
      data := data + [entry];
      i := i + 1;
    }
    assert data + [] == data;
  }
}
