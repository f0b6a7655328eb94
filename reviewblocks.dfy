/**
  Turning scraped product reviews into CSV rows. The scraper writes one review per block,
  blocks separated by "---\n"; each block holds the reviewer (wrapped in '*'), a line the
  converters ignore, a "規格 : ..." line, the date, the rating and the comment lines.
  tests/hw4/tocsv.py keeps only blocks of at least five lines; the `tocsv` of
  tests/hw5/app.py keeps every non-blank block and fills missing fields with "N/A".
  The CSV writer is a sink of rows under a fixed header.
 */
module ReviewBlocks {
  import opened Wrappers
  import opened Strings
  import opened Chunking

  const Header: seq<string> := ["使用者", "規格", "日期", "評分", "留言內容"]
  const BlockSeparator: string := "---\n"
  const SpecTag: string := "規格 : "
  const SpecWord: string := "規格"
  const RatingWord: string := "評等"
  const Missing: string := "N/A"

  /** The header and the rows handed to `csv.writer`. */
  datatype CsvTable = CsvTable(header: seq<string>, rows: seq<seq<string>>)

  /** `content.strip().split('---\n')`. */
  function Blocks(content: string): seq<string> {
    Split(Strip(content), BlockSeparator)
  }

  /** `block.strip().split('\n')`: never empty. */
  function BlockLines(block: string): (lines: seq<string>)
    ensures |lines| >= 1
  {
    Split(Strip(block), "\n")
  }

  /** `lines[0].strip('*').strip()`. */
  function UserOf(line: string): string {
    Strip(StripChar(line, '*'))
  }

  /** `line.replace("規格 : ", "").strip()`. */
  function SpecOf(line: string): string {
    Strip(Replace(line, SpecTag, ""))
  }

  /** `''.join(lines).strip()`. */
  function CommentOf(lines: seq<string>): string {
    Strip(Concat(lines))
  }

  /** The values of the rows that exist, in order. */
  function Somes<T>(xs: seq<Option<T>>): (ys: seq<T>)
    ensures |ys| <= |xs|
    decreases |xs|
  {
    if |xs| == 0 then []
    else Somes(xs[..|xs| - 1]) + (match xs[|xs| - 1] case Some(y) => [y] case None => [])
  }

  lemma SomesSnoc<T>(xs: seq<Option<T>>, x: Option<T>)
    ensures Somes(xs + [x]) == Somes(xs) + (match x case Some(y) => [y] case None => [])
  {
    assert (xs + [x])[..|xs|] == xs;
  }

  /** The rows of concatenated block lists are the rows of each, in order. */
  lemma {:induction false} SomesAppend<T>(xs: seq<Option<T>>, ys: seq<Option<T>>)
    ensures Somes(xs + ys) == Somes(xs) + Somes(ys)
    decreases |ys|
  {
    if |ys| == 0 {
      assert xs + ys == xs;
    } else {
      var init, last := ys[..|ys| - 1], ys[|ys| - 1];
      assert ys == init + [last];
      assert xs + ys == (xs + init) + [last];
      SomesSnoc(xs + init, last);
      SomesSnoc(init, last);
      SomesAppend(xs, init);
    }
  }

  /** Every row comes from a block, and every block that gives a row gives it. */
  lemma {:induction false} SomesMember<T>(xs: seq<Option<T>>, y: T)
    ensures y in Somes(xs) <==> Some(y) in xs
    decreases |xs|
  {
    if |xs| > 0 {
      var init := xs[..|xs| - 1];
      assert xs == init + [xs[|xs| - 1]];
      SomesMember(init, y);
    }
  }

  // ---------------------------------------------------------------------------
  // tests/hw4/tocsv.py

  /** The row of a block of at least five lines; shorter blocks are skipped. */
  function Hw4Row(lines: seq<string>): (row: Option<seq<string>>)
    ensures row.Some? ==> |row.value| == 5
  {
    if |lines| < 5 then None
    else Some([UserOf(lines[0]), SpecOf(lines[2]), Strip(lines[3]), Strip(lines[4]), CommentOf(lines[5..])])
  }

  function Hw4Block(block: string): Option<seq<string>> {
    Hw4Row(BlockLines(block))
  }

  function Hw4Rows(content: string): seq<seq<string>> {
    Somes(MapSeq(Hw4Block, Blocks(content)))
  }

  /** The loop of tests/hw4/tocsv.py, then the header and rows it writes. */
  method Hw4ToCsv(content: string) returns (table: CsvTable)
    ensures table == CsvTable(Header, Hw4Rows(content))
  {
    var blocks := Blocks(content);
    var data: seq<seq<string>> := [];
    for i := 0 to |blocks|
      invariant data == Somes(MapSeq(Hw4Block, blocks[..i]))
    {
      TakeSnoc(blocks, i);
      MapSeqSnoc(Hw4Block, blocks[..i], blocks[i]);
      SomesSnoc(MapSeq(Hw4Block, blocks[..i]), Hw4Block(blocks[i]));
      var row := Hw4BlockRow(blocks[i]);
      if row.Some? {
        data := data + [row.value];
      }
    }
    assert blocks[..|blocks|] == blocks;
    table := CsvTable(Header, data);
  }

  /** One pass of the loop body: `continue` on a short block, otherwise the row to append. */
  method Hw4BlockRow(block: string) returns (row: Option<seq<string>>)
    ensures row == Hw4Block(block)
  {
    var lines := BlockLines(block);
    if |lines| < 5 {
      return None;
    }
    var fields := Hw4Fields(lines);
    return Some(fields);
  }

  /** The five fields of a complete block. */
  method Hw4Fields(lines: seq<string>) returns (row: seq<string>)
    requires |lines| >= 5
    ensures Hw4Row(lines) == Some(row)
  {
    var user := UserOf(lines[0]);
    var spec := SpecOf(lines[2]);
    var date := Strip(lines[3]);
    var rating := Strip(lines[4]);
    var comment := CommentOf(lines[5..]);
    row := [user, spec, date, rating, comment];
  }

  /** Every row has five fields, and there are never more rows than blocks. */
  lemma Hw4RowsShape(content: string)
    ensures |Hw4Rows(content)| <= |Blocks(content)|
    ensures forall k :: 0 <= k < |Hw4Rows(content)| ==> |Hw4Rows(content)[k]| == 5
  {
    var rows := Hw4Rows(content);
    forall k | 0 <= k < |rows| ensures |rows[k]| == 5 {
      SomesMember(MapSeq(Hw4Block, Blocks(content)), rows[k]);
      var j :| 0 <= j < |Blocks(content)| && MapSeq(Hw4Block, Blocks(content))[j] == Some(rows[k]);
    }
  }

  /** The second line of a block is never read. */
  lemma Hw4IgnoresSecondLine(lines: seq<string>, other: string)
    requires |lines| >= 2
    ensures Hw4Row(lines[1 := other]) == Hw4Row(lines)
  {
    if |lines| >= 5 {
      assert lines[1 := other][5..] == lines[5..];
    }
  }

  /** A five-line block has an empty comment. */
  lemma Hw4FiveLines(lines: seq<string>)
    requires |lines| == 5
    ensures Hw4Row(lines).Some? && Hw4Row(lines).value[4] == ""
  {
    assert lines[5..] == [];
    TrimBare("", IsSpace);
  }

  /** The lines of a block that holds one review written the way the scraper writes it. */
  function ReviewLines(user: string, other: string, spec: string, date: string, rating: string, comment: string): seq<string> {
    ["*" + user + "*", other, SpecTag + spec, date, rating, comment]
  }

  /** A field that reads back as itself: stripped, on one line. */
  predicate CleanField(f: string) {
    Strip(f) == f && '\n' !in f
  }

  /** A block holding a review reads back as that review's row. */
  lemma Hw4ReadsReview(user: string, other: string, spec: string, date: string, rating: string, comment: string)
    requires CleanField(user) && Bare(user, SameChar('*'))
    requires CleanField(spec) && !Contains(spec, SpecTag)
    requires CleanField(date) && CleanField(rating) && CleanField(comment) && comment != ""
    requires '\n' !in other
    ensures Hw4Block(Join("\n", ReviewLines(user, other, spec, date, rating, comment)))
      == Some([user, spec, date, rating, comment])
  {
    var lines := ReviewLines(user, other, spec, date, rating, comment);
    TrimIdempotent(comment, IsSpace);
    assert '\n' !in SpecTag;
    assert lines[0][0] == '*';
    ReviewBlockLines(lines);
    ReviewFields(user, spec, comment);
  }

  /** The fields of a review come back out of its lines. */
  lemma ReviewFields(user: string, spec: string, comment: string)
    requires CleanField(user) && Bare(user, SameChar('*'))
    requires CleanField(spec) && !Contains(spec, SpecTag)
    requires CleanField(comment)
    ensures UserOf("*" + user + "*") == user
    ensures SpecOf(SpecTag + spec) == spec
    ensures CommentOf([comment]) == comment
  {
    assert AllDropped("*", SameChar('*'));
    TrimOf("*", user, "*", SameChar('*'));
    ReplaceTag(SpecTag, spec);
  }

  /** Lines without line breaks that do not start or end in whitespace split back out of the block. */
  lemma ReviewBlockLines(lines: seq<string>)
    requires |lines| >= 1 && lines[0] != "" && lines[|lines| - 1] != ""
    requires forall i :: 0 <= i < |lines| ==> '\n' !in lines[i]
    requires !IsSpace(lines[0][0]) && !IsSpace(lines[|lines| - 1][|lines[|lines| - 1]| - 1])
    ensures BlockLines(Join("\n", lines)) == lines
  {
    JoinEndChars("\n", lines);
    TrimBare(Join("\n", lines), IsSpace);
    JoinSplitChar('\n', lines);
  }

  // ---------------------------------------------------------------------------
  // tocsv in tests/hw5/app.py

  /** The row of a block; only a block whose first line is empty is skipped. */
  function Hw5Row(lines: seq<string>): (row: Option<seq<string>>)
    requires |lines| >= 1
    ensures row.Some? ==> |row.value| == 5
  {
    if lines[0] == "" then None
    else
      var spec := if |lines| > 2 && Contains(lines[2], SpecWord) then SpecOf(lines[2]) else Missing;
      var date := if |lines| > 3 then Strip(lines[3]) else Missing;
      var rating := if |lines| > 4 && Contains(lines[4], RatingWord) then Strip(lines[4]) else Missing;
      var comment :=
        if |lines| > 4 && Contains(lines[4], RatingWord) then CommentOf(lines[5..])
        else if |lines| > 4 then CommentOf(lines[4..])
        else "";
      Some([UserOf(lines[0]), spec, date, rating, comment])
  }

  function Hw5Block(block: string): Option<seq<string>> {
    Hw5Row(BlockLines(block))
  }

  function Hw5Rows(content: string): seq<seq<string>> {
    Somes(MapSeq(Hw5Block, Blocks(content)))
  }

  /**
    `tocsv` of tests/hw5/app.py: `None` stands for the missing list.txt (the function
    returns False and writes nothing); otherwise the header and rows it writes.
   */
  method Hw5ToCsv(content: Option<string>) returns (table: Option<CsvTable>)
    ensures content.None? ==> table.None?
    ensures content.Some? ==> table == Some(CsvTable(Header, Hw5Rows(content.value)))
  {
    if content.None? {
      return None;
    }
    var blocks := Blocks(content.value);
    var data: seq<seq<string>> := [];
    for i := 0 to |blocks|
      invariant data == Somes(MapSeq(Hw5Block, blocks[..i]))
    {
      TakeSnoc(blocks, i);
      MapSeqSnoc(Hw5Block, blocks[..i], blocks[i]);
      SomesSnoc(MapSeq(Hw5Block, blocks[..i]), Hw5Block(blocks[i]));
      var lines := BlockLines(blocks[i]);
      if lines[0] == "" {
        continue;
      }
      var row := Hw5Fields(lines);
      data := data + [row];
    }
    assert blocks[..|blocks|] == blocks;
    return Some(CsvTable(Header, data));
  }

  /** The field defaults, then the overrides of the source's `if` chain. */
  method Hw5Fields(lines: seq<string>) returns (row: seq<string>)
    requires |lines| >= 1 && lines[0] != ""
    ensures Hw5Row(lines) == Some(row)
  {
    var user, spec, date, rating, comment := Missing, Missing, Missing, Missing, "";
    user := UserOf(lines[0]);
    if |lines| > 2 && Contains(lines[2], SpecWord) {
      spec := SpecOf(lines[2]);
    }
    if |lines| > 3 {
      date := Strip(lines[3]);
    }
    if |lines| > 4 && Contains(lines[4], RatingWord) {
      rating := Strip(lines[4]);
      comment := CommentOf(lines[5..]);
    } else if |lines| > 4 {
      comment := CommentOf(lines[4..]);
    } else {
      comment := "";
    }
    row := [user, spec, date, rating, comment];
  }

  /** A block is skipped exactly when it is blank. */
  lemma Hw5SkipsBlank(block: string)
    ensures Hw5Block(block).None? <==> Strip(block) == ""
  {
    var s := Strip(block);
    if s == "" {
      assert IndexOf(s, "\n") == None;
    } else if BlockLines(block)[0] == "" {
      SplitFirstEmpty(s, "\n");
      TrimIdempotent(block, IsSpace);
      assert false;
    }
  }

  /** Every row has five fields, and there are never more rows than blocks. */
  lemma Hw5RowsShape(content: string)
    ensures |Hw5Rows(content)| <= |Blocks(content)|
    ensures forall k :: 0 <= k < |Hw5Rows(content)| ==> |Hw5Rows(content)[k]| == 5
  {
    var rows := Hw5Rows(content);
    forall k | 0 <= k < |rows| ensures |rows[k]| == 5 {
      SomesMember(MapSeq(Hw5Block, Blocks(content)), rows[k]);
      var j :| 0 <= j < |Blocks(content)| && MapSeq(Hw5Block, Blocks(content))[j] == Some(rows[k]);
    }
  }

  /** Missing lines give the defaults: a one-line block is the user and nothing else. */
  lemma Hw5Defaults(lines: seq<string>)
    requires |lines| >= 1 && lines[0] != ""
    ensures |lines| <= 4 ==> Hw5Row(lines).value[3] == Missing && Hw5Row(lines).value[4] == ""
    ensures |lines| <= 3 ==> Hw5Row(lines).value[2] == Missing
    ensures |lines| <= 2 ==> Hw5Row(lines).value[1] == Missing
  {
  }

  /**
    On a complete block whose third line names the specification and whose fifth line
    holds the rating, both converters give the same row.
   */
  lemma Hw5AgreesWithHw4(lines: seq<string>)
    requires |lines| >= 5 && lines[0] != ""
    requires Contains(lines[2], SpecWord) && Contains(lines[4], RatingWord)
    ensures Hw5Row(lines) == Hw4Row(lines)
  {
  }

  /** Without a rating word, the fifth line starts the comment instead. */
  lemma Hw5CommentWithoutRating(lines: seq<string>)
    requires |lines| >= 5 && lines[0] != "" && !Contains(lines[4], RatingWord)
    ensures Hw5Row(lines).value[3] == Missing
    ensures Hw5Row(lines).value[4] == CommentOf([lines[4]] + lines[5..])
  {
    assert lines[4..] == [lines[4]] + lines[5..];
  }
}
