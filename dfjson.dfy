/**
  tests/autogen/dfjson.py: look up one app on one date in the rankings store and, when the
  store has it, cut the store's top-level entries (the dates) in pairs and print them with
  labels counted from 1; otherwise print that nothing was found.
 */
module DfJson {
  import opened Wrappers
  import opened Strings
  import opened Chunking
  import opened JsonValues
  import opened DataAgent

  const QueryDate: string := "2025-03-18"
  const QueryApp: string := "wis_tw_ios"
  const PairSize: nat := 2

  /**
    `date in data and app in data[date]`, evaluated left to right: None when one of the
    steps raises (TypeError on `in`, or on indexing something that is not a dict).
   */
  function Found(data: Json, date: string, app: string): Option<bool> {
    match PyIn(date, data)
    case None => None
    case Some(false) => Some(false)
    case Some(true) =>
      if data.JObject? then PyIn(app, Lookup(data.entries, date).value) else None
  }

  /** The printed lines, or an uncaught exception. */
  datatype Printout = Printed(lines: seq<string>) | Raised

  function ChunkLine(number: nat, chunkText: string): string {
    "Chunk " + DecimalString(number) + ": " + chunkText
  }

  function NotFoundLine(date: string, app: string): string {
    "No data found for " + app + " on " + date
  }

  /** The lines of the printing loop, `Chunk 1: ...` first. */
  function ChunkLines(chunks: seq<seq<Item>>, render: seq<Item> -> string): (r: seq<string>)
    ensures |r| == |chunks|
  {
    seq(|chunks|, i requires 0 <= i < |chunks| => ChunkLine(i + 1, render(chunks[i])))
  }

  /** What the script prints for `data`, looking for `app` on `date`. */
  function Report(data: Json, date: string, app: string, render: seq<Item> -> string): Printout {
    match Found(data, date, app)
    case None => Raised
    case Some(false) => Printed([NotFoundLine(date, app)])
    case Some(true) => Printed(ChunkLines(Chunks(Items(data).value, PairSize), render))
  }

  /** The script itself, with its own date and app. */
  function DfJsonScript(data: Json, render: seq<Item> -> string): Printout {
    Report(data, QueryDate, QueryApp, render)
  }

  /**
    The script prints the chunks exactly when the store is a dict with the date as a key
    and the app in that date's value; it prints the not-found line exactly when the date
    is missing from the store, or present with the app missing from its value; and it
    raises exactly when `in` meets a value that supports no membership test, or the store
    holding the date is a list or a string that cannot be indexed by it.
   */
  lemma ReportOutcome(data: Json, date: string, app: string, render: seq<Item> -> string)
    ensures Items(data).Some? && Report(data, date, app, render) == Printed(ChunkLines(Chunks(Items(data).value, PairSize), render))
      <==>
        data.JObject? && HasKey(data.entries, date) && PyIn(app, Lookup(data.entries, date).value) == Some(true)
    ensures Report(data, date, app, render) == Printed([NotFoundLine(date, app)]) <==>
      PyIn(date, data) == Some(false)
      || (data.JObject? && HasKey(data.entries, date) && PyIn(app, Lookup(data.entries, date).value) == Some(false))
    ensures Report(data, date, app, render) == Raised <==>
      PyIn(date, data).None?
      || (PyIn(date, data) == Some(true) && !data.JObject?)
      || (data.JObject? && HasKey(data.entries, date) && PyIn(app, Lookup(data.entries, date).value).None?)
  {
    var items := Items(data);
    if items.Some? {
      var chunkLines := ChunkLines(Chunks(items.value, PairSize), render);
      if |chunkLines| > 0 {
        assert chunkLines[0][0] == 'C';
      }
      assert chunkLines != [NotFoundLine(date, app)] by {
        if |chunkLines| > 0 {
          assert NotFoundLine(date, app)[0] == 'N';
        }
      }
    }
  }

  /**
    When found, the pairs partition the store's top-level entries (the dates, not the
    app's records) in order, every pair but the last holds two dates, and line `i` shows
    pair `i` under the label `i + 1`.
   */
  lemma ReportChunks(data: Json, date: string, app: string, render: seq<Item> -> string)
    requires Found(data, date, app) == Some(true)
    ensures data.JObject?
    ensures var chunks := Chunks(Items(data).value, PairSize);
      var lines := Report(data, date, app, render).lines;
      Flatten(chunks) == Items(data).value
      && |Items(data).value| == |data.entries|
      && (forall i :: 0 <= i < |data.entries| ==> Items(data).value[i] == Pair(data.entries[i].0, data.entries[i].1))
      && (forall j :: 0 <= j < |chunks| ==> 0 < |chunks[j]| <= PairSize)
      && (forall j :: 0 <= j < |chunks| - 1 ==> |chunks[j]| == PairSize)
      && |lines| == |chunks|
      && (forall i :: 0 <= i < |lines| ==>
            StartsWith(lines[i], "Chunk " + DecimalString(i + 1) + ": ") && EndsWith(lines[i], render(chunks[i])))
  {
    var items := Items(data).value;
    var chunks := Chunks(items, PairSize);
    ChunksPartition(items, PairSize);
    var lines := Report(data, date, app, render).lines;
    forall i | 0 <= i < |lines|
      ensures StartsWith(lines[i], "Chunk " + DecimalString(i + 1) + ": ") && EndsWith(lines[i], render(chunks[i]))
    {
      var head := "Chunk " + DecimalString(i + 1) + ": ";
      assert lines[i] == head + render(chunks[i]);
      assert lines[i][..|head|] == head;
      assert lines[i][|lines[i]| - |render(chunks[i])|..] == render(chunks[i]);
    }
  }

  /** Labels are distinct: the decimal label of line `i` reads back as `i + 1`. */
  lemma LabelsCount(chunks: seq<seq<Item>>, render: seq<Item> -> string, i: nat)
    requires i < |chunks|
    ensures var digits := DecimalString(i + 1);
      ChunkLines(chunks, render)[i][|"Chunk "|..|"Chunk "| + |digits|] == digits && DigitsValue(digits) == i + 1
  {
    var digits := DecimalString(i + 1);
    var line := ChunkLines(chunks, render)[i];
    assert line == "Chunk " + digits + ": " + render(chunks[i]);
    assert line[6..6 + |digits|] == digits;
  }

  /** The script: the guard, the range-step loop cutting the pairs, then the printing loop. */
  method DfJsonMain(data: Json, date: string, app: string, render: seq<Item> -> string) returns (out: Printout)
    ensures out == Report(data, date, app, render)
  {
    var found := Found(data, date, app);
    if found.None? {
      return Raised;
    }
    if !found.value {
      return Printed([NotFoundLine(date, app)]);
    }
    var items := Items(data).value;
    var chunks := ChunkSlices(items, PairSize);
    var lines: seq<string> := [];
    for index := 0 to |chunks|
      invariant |lines| == index
      invariant forall i :: 0 <= i < index ==> lines[i] == ChunkLine(i + 1, render(chunks[i]))
    {
      lines := lines + [ChunkLine(index + 1, render(chunks[index]))];
    }
    assert lines == ChunkLines(chunks, render);
    out := Printed(lines);
  }
}
