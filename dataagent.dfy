/**
  tests/autogen/dataAgent.py: the rankings store read back and cut in pairs of entries,
  one prompt per pair for a team of agents, one record per text message of the team's
  reply, and all records in pair order for the conversation log. The team run is a
  parameter: a function from the prompt to the stream of events it yields.
 */
module DataAgent {
  import opened Wrappers
  import opened Strings
  import opened Chunking
  import opened JsonValues

  const ChunkSize: nat := 2

  /** One element of `items`: a `(key, value)` pair of a dict, an element of a list, or a character of a string. */
  datatype Item = Pair(key: string, value: Json) | Element(element: Json) | Character(c: char)

  /**
    `list(data.items()) if isinstance(data, dict) else data`: the entries of an object in
    order, or the elements of a list or string; None for a value `len` refuses (TypeError).
   */
  function Items(data: Json): (r: Option<seq<Item>>)
    ensures r.None? <==> !(data.JObject? || data.JArray? || data.JString?)
  {
    match data
    case JObject(e) => Some(seq(|e|, i requires 0 <= i < |e| => Pair(e[i].0, e[i].1)))
    case JArray(xs) => Some(seq(|xs|, i requires 0 <= i < |xs| => Element(xs[i])))
    case JString(s) => Some(seq(|s|, i requires 0 <= i < |s| => Character(s[i])))
    case _ => None
  }

  /** `str(n)` for a Python int. */
  function IntString(n: int): string {
    if n < 0 then "-" + DecimalString(-n) else DecimalString(n)
  }

  /** The fixed request that closes every batch's prompt. */
  const AdviceRequest: string :=
    "請根據以上資料進行分析，並提供完整的開發者ASO建議。"
    + "其中請特別注意：\n"
    + "  1. 分析不同日期的排名變化（Naming rule: appName_region_platform）；\n"
    + "  2. 請 MultimodalWebSurfer 搜尋外部網站，找出最新App開發者資訊資訊（例如趨勢、平台、政策更變等），\n"
    + "     並將搜尋結果整合進回覆中；\n"
    + "  3. 最後請提供具體的建議和相關參考資訊。\n"
    + "請各代理人協同合作，提供一份完整且具參考價值的建議。"

  /** The prompt of one batch, around the batch's text as Python prints it. */
  function ChunkPrompt(startIdx: int, chunkLen: nat, totalRecords: nat, chunkText: string): string {
    "目前正在處理第 " + IntString(startIdx) + " 至 " + IntString(startIdx + chunkLen - 1) + " 筆資料（共 " + IntString(totalRecords) + " 筆）。\n"
    + "以下為該批次資料:\n" + chunkText + "\n\n"
    + AdviceRequest
  }

  /** The token counts of a reply, when the model reports them. */
  datatype Usage = Usage(promptTokens: nat, completionTokens: nat)

  /** What the team's stream yields: a text message from one agent, or any other event. */
  datatype Event = TextMessage(source: string, content: string, kind: string, usage: Option<Usage>) | OtherEvent

  /** One message record of a batch (one row of the conversation log). */
  datatype Record = Record(batchStart: int, batchEnd: int, source: string, content: string, kind: string,
                           promptTokens: Option<nat>, completionTokens: Option<nat>)

  predicate IsText(e: Event) {
    e.TextMessage?
  }

  /** The record of one text message of the batch starting at `startIdx` with `chunkLen` items. */
  function MessageRecord(startIdx: int, chunkLen: nat, e: Event): Record
    requires e.TextMessage?
  {
    Record(startIdx, startIdx + chunkLen - 1, e.source, e.content, e.kind,
           if e.usage.Some? then Some(e.usage.value.promptTokens) else None,
           if e.usage.Some? then Some(e.usage.value.completionTokens) else None)
  }

  /** The records `process_chunk` appends for a stream of events: one per text message, in order. */
  function ChunkRecords(startIdx: int, chunkLen: nat, events: seq<Event>): seq<Record>
    decreases |events|
  {
    if |events| == 0 then []
    else
      var last := events[|events| - 1];
      ChunkRecords(startIdx, chunkLen, events[..|events| - 1])
      + (if last.TextMessage? then [MessageRecord(startIdx, chunkLen, last)] else [])
  }

  /**
    The records of a batch are the text messages of its stream, in order, each stamped with
    the batch's first and last index; the token counts are None exactly when the message
    carries no usage.
   */
  lemma {:induction false} ChunkRecordsSpec(startIdx: int, chunkLen: nat, events: seq<Event>)
    ensures var r := ChunkRecords(startIdx, chunkLen, events);
      var texts := Filter(IsText, events);
      |r| == |texts|
      && (forall k :: 0 <= k < |r| ==> r[k] == MessageRecord(startIdx, chunkLen, texts[k]))
      && (forall k :: 0 <= k < |r| ==> r[k].batchStart == startIdx && r[k].batchEnd == startIdx + chunkLen - 1)
      && (forall k :: 0 <= k < |r| ==> (r[k].promptTokens.None? <==> texts[k].usage.None?)
                                       && (r[k].completionTokens.None? <==> texts[k].usage.None?))
    decreases |events|
  {
    if |events| > 0 {
      var n := |events| - 1;
      ChunkRecordsSpec(startIdx, chunkLen, events[..n]);
      FilterSnoc(IsText, events[..n], events[n]);
      assert events[..n] + [events[n]] == events;
    }
  }

  /**
    `process_chunk`: build the batch's prompt, run the team on it and keep one record per
    text message of the stream.
   */
  method ProcessChunk(chunk: seq<Item>, startIdx: int, totalRecords: nat, run: string -> seq<Event>,
                      render: seq<Item> -> string)
    returns (messages: seq<Record>)
    ensures messages == ChunkRecords(startIdx, |chunk|, run(ChunkPrompt(startIdx, |chunk|, totalRecords, render(chunk))))
  {
    var prompt := ChunkPrompt(startIdx, |chunk|, totalRecords, render(chunk));
    var events := run(prompt);
    messages := [];
    for i := 0 to |events|
      invariant messages == ChunkRecords(startIdx, |chunk|, events[..i])
    {
      var event := events[i];
      ChunkRecordsStep(startIdx, |chunk|, events, i);
      if event.TextMessage? {
        messages := messages + [MessageRecord(startIdx, |chunk|, event)];
      }
    }
    assert events[..|events|] == events;
  }

  /** One more event of the stream adds its record when it is a text message. */
  lemma ChunkRecordsStep(startIdx: int, chunkLen: nat, events: seq<Event>, i: nat)
    requires i < |events|
    ensures ChunkRecords(startIdx, chunkLen, events[..i + 1])
      == ChunkRecords(startIdx, chunkLen, events[..i])
         + (if events[i].TextMessage? then [MessageRecord(startIdx, chunkLen, events[i])] else [])
  {
    assert events[..i + 1][..i] == events[..i];
  }

  /** The columns of the conversation log, in order. */
  const RecordKeys: seq<string> :=
    ["batch_start", "batch_end", "source", "content", "type", "prompt_tokens", "completion_tokens"]

  function TokenJson(n: Option<nat>): Json {
    if n.Some? then JNumber(n.value) else JNull
  }

  /** The dict appended for a record. */
  function RecordJson(r: Record): Json {
    JObject([("batch_start", JNumber(r.batchStart)), ("batch_end", JNumber(r.batchEnd)), ("source", JString(r.source)),
             ("content", JString(r.content)), ("type", JString(r.kind)),
             ("prompt_tokens", TokenJson(r.promptTokens)), ("completion_tokens", TokenJson(r.completionTokens))])
  }

  function Names(e: Entries): seq<string> {
    seq(|e|, i requires 0 <= i < |e| => e[i].0)
  }

  /**
    Every record dict has the same seven keys in the same order, and its token counts are
    null exactly when the record has none.
   */
  lemma RecordShape(r: Record)
    ensures Names(RecordJson(r).entries) == RecordKeys
    ensures Lookup(RecordJson(r).entries, "prompt_tokens") == Some(TokenJson(r.promptTokens))
    ensures Lookup(RecordJson(r).entries, "completion_tokens") == Some(TokenJson(r.completionTokens))
    ensures TokenJson(r.promptTokens) == JNull <==> r.promptTokens.None?
    ensures Lookup(RecordJson(r).entries, "batch_start") == Some(JNumber(r.batchStart))
    ensures Lookup(RecordJson(r).entries, "batch_end") == Some(JNumber(r.batchEnd))
  {
    var e := RecordJson(r).entries;
    assert e[0].0 == "batch_start" && e[1].0 == "batch_end";
    assert e[5].0 == "prompt_tokens" && e[6].0 == "completion_tokens";
    KeyIndexIs(e, "batch_start", 0);
    KeyIndexIs(e, "batch_end", 1);
    KeyIndexIs(e, "prompt_tokens", 5);
    KeyIndexIs(e, "completion_tokens", 6);
  }

  /** The team's events for every batch, each run on the batch's own prompt. */
  function BatchEvents(chunks: seq<seq<Item>>, totalRecords: nat, run: string -> seq<Event>,
                       render: seq<Item> -> string): (r: seq<seq<Event>>)
    ensures |r| == |chunks|
  {
    seq(|chunks|, idx requires 0 <= idx < |chunks| => run(ChunkPrompt(2 * idx, |chunks[idx]|, totalRecords, render(chunks[idx]))))
  }

  /** The records of every batch, stamped with the batch's place among the pairs. */
  function StampRecords(chunks: seq<seq<Item>>, events: seq<seq<Event>>): (r: seq<seq<Record>>)
    requires |events| == |chunks|
    ensures |r| == |chunks|
  {
    seq(|chunks|, idx requires 0 <= idx < |chunks| => ChunkRecords(2 * idx, |chunks[idx]|, events[idx]))
  }

  /** The records of every batch, in batch order: what `asyncio.gather` returns for the task list. */
  function BatchResults(chunks: seq<seq<Item>>, totalRecords: nat, run: string -> seq<Event>,
                        render: seq<Item> -> string): (r: seq<seq<Record>>)
    ensures |r| == |chunks|
  {
    StampRecords(chunks, BatchEvents(chunks, totalRecords, run, render))
  }

  /** How `main` ends: without an API key, by an exception on data `len` refuses, or with the log. */
  datatype AgentRun = MissingKey | Crashed | Logged(log: seq<Record>)

  /** `main`: the key check, the pairs of items, one batch per pair, and the flattened log. */
  function AgentLog(apiKey: Option<string>, data: Json, run: string -> seq<Event>, render: seq<Item> -> string): AgentRun {
    if apiKey.None? || apiKey.value == "" then MissingKey
    else match Items(data)
      case None => Crashed
      case Some(items) =>
        var chunks := Chunks(items, ChunkSize);
        Logged(Flatten(BatchResults(chunks, |chunks|, run, render)))
  }

  /** The pairs: they partition the items, all hold two items but the last, and there are ceil(n/2) of them. */
  lemma PairsSpec(items: seq<Item>)
    ensures var chunks := Chunks(items, ChunkSize);
      Flatten(chunks) == items
      && (forall j :: 0 <= j < |chunks| ==> 0 < |chunks[j]| <= ChunkSize)
      && (forall j :: 0 <= j < |chunks| - 1 ==> |chunks[j]| == ChunkSize)
      && |chunks| == (|items| + 1) / 2
  {
    ChunksPartition(items, ChunkSize);
    ChunkCountBounds(items, ChunkSize);
  }

  /** Batch `idx` starts at item `2 * idx` and ends at its last item, `min(2 * idx + 1, n - 1)`. */
  lemma BatchBounds(items: seq<Item>, idx: nat)
    requires idx < |Chunks(items, ChunkSize)|
    ensures 2 * idx < |items|
    ensures 2 * idx + |Chunks(items, ChunkSize)[idx]| - 1 == Min(2 * idx + 1, |items| - 1)
  {
    ChunkAt(items, ChunkSize, idx);
  }

  /** Every record of block `idx` carries batch start `2 * (base + idx)`. */
  predicate StampedFrom(blocks: seq<seq<Record>>, base: nat) {
    forall idx, k :: 0 <= idx < |blocks| && 0 <= k < |blocks[idx]| ==> blocks[idx][k].batchStart == 2 * (base + idx)
  }

  predicate InBatchOrder(log: seq<Record>) {
    forall i, j :: 0 <= i < j < |log| ==> log[i].batchStart <= log[j].batchStart
  }

  /** A log whose batches are stamped `2 * (base + idx)` is in batch order once flattened. */
  lemma {:induction false} FlattenInBatchOrder(blocks: seq<seq<Record>>, base: nat)
    requires StampedFrom(blocks, base)
    ensures forall i :: 0 <= i < |Flatten(blocks)| ==> Flatten(blocks)[i].batchStart >= 2 * base
    ensures InBatchOrder(Flatten(blocks))
    decreases |blocks|
  {
    if |blocks| > 0 {
      var rest := blocks[1..];
      assert StampedFrom(rest, base + 1) by {
        forall idx, k | 0 <= idx < |rest| && 0 <= k < |rest[idx]|
          ensures rest[idx][k].batchStart == 2 * (base + 1 + idx)
        {
          assert rest[idx] == blocks[idx + 1];
        }
      }
      FlattenInBatchOrder(rest, base + 1);
      var f := Flatten(blocks);
      var head := blocks[0];
      var tail := Flatten(rest);
      assert f == head + tail;
      forall i | 0 <= i < |f| ensures f[i].batchStart >= 2 * base {
        if i >= |head| {
          assert f[i] == tail[i - |head|];
        } else {
          assert f[i] == blocks[0][i];
        }
      }
      forall i, j | 0 <= i < j < |f| ensures f[i].batchStart <= f[j].batchStart {
        if j < |head| {
          assert f[i] == blocks[0][i] && f[j] == blocks[0][j];
        } else if i < |head| {
          assert f[i] == blocks[0][i] && f[j] == tail[j - |head|];
        } else {
          assert f[i] == tail[i - |head|] && f[j] == tail[j - |head|];
        }
      }
    }
  }

  /**
    Batch `idx`'s records come from the team's reply to its own prompt, and that prompt
    quotes the number of pairs, ceil(n/2), as the total, not the number of items.
   */
  lemma BatchPrompt(items: seq<Item>, run: string -> seq<Event>, render: seq<Item> -> string, idx: nat)
    requires idx < |Chunks(items, ChunkSize)|
    ensures var chunks := Chunks(items, ChunkSize);
      BatchResults(chunks, |chunks|, run, render)[idx]
        == ChunkRecords(2 * idx, |chunks[idx]|, run(ChunkPrompt(2 * idx, |chunks[idx]|, (|items| + 1) / 2, render(chunks[idx]))))
  {
    PairsSpec(items);
  }

  /**
    Each record of batch `idx` is stamped with the batch's first and last item index, so
    the flattened log is ordered by batch start.
   */
  lemma BatchesSpec(items: seq<Item>, run: string -> seq<Event>, render: seq<Item> -> string)
    ensures var chunks := Chunks(items, ChunkSize);
      var results := BatchResults(chunks, |chunks|, run, render);
      (forall idx, k :: 0 <= idx < |chunks| && 0 <= k < |results[idx]| ==>
            results[idx][k].batchStart == 2 * idx && results[idx][k].batchEnd == Min(2 * idx + 1, |items| - 1))
      && InBatchOrder(Flatten(results))
  {
    var chunks := Chunks(items, ChunkSize);
    StampsSpec(items, BatchEvents(chunks, |chunks|, run, render));
  }

  /** Whatever the team replies, the records of batch `idx` are stamped with its first and last item index. */
  lemma StampsSpec(items: seq<Item>, events: seq<seq<Event>>)
    requires |events| == |Chunks(items, ChunkSize)|
    ensures var chunks := Chunks(items, ChunkSize);
      var results := StampRecords(chunks, events);
      (forall idx, k :: 0 <= idx < |chunks| && 0 <= k < |results[idx]| ==>
            results[idx][k].batchStart == 2 * idx && results[idx][k].batchEnd == Min(2 * idx + 1, |items| - 1))
      && InBatchOrder(Flatten(results))
  {
    var chunks := Chunks(items, ChunkSize);
    var results: seq<seq<Record>> := StampRecords(chunks, events);
    forall idx: int, k: int | 0 <= idx < |chunks| && 0 <= k < |results[idx]|
      ensures results[idx][k].batchStart == 2 * idx && results[idx][k].batchEnd == Min(2 * idx + 1, |items| - 1)
    {
      ChunkRecordsSpec(2 * idx, |chunks[idx]|, events[idx]);
      BatchBounds(items, idx);
    }
    FlattenInBatchOrder(results, 0);
  }

  /** The number of text messages in the streams of all batches. */
  function TextMessages(events: seq<seq<Event>>): nat {
    if |events| == 0 then 0 else |Filter(IsText, events[0])| + TextMessages(events[1..])
  }

  /** A record of one of the pairs of `n` items: it starts at an even index below `n` and ends at the pair's last item. */
  predicate PairStamped(r: Record, n: nat) {
    r.batchStart % 2 == 0 && 0 <= r.batchStart < n && r.batchEnd == Min(r.batchStart + 1, n - 1)
  }

  /** Flattening keeps one record per text message, and each record's stamp. */
  lemma {:induction false} FlattenStamped(blocks: seq<seq<Record>>, events: seq<seq<Event>>, n: nat)
    requires |blocks| == |events|
    requires forall i :: 0 <= i < |blocks| ==> |blocks[i]| == |Filter(IsText, events[i])|
    requires forall i, k :: 0 <= i < |blocks| && 0 <= k < |blocks[i]| ==> PairStamped(blocks[i][k], n)
    ensures |Flatten(blocks)| == TextMessages(events)
    ensures forall p :: 0 <= p < |Flatten(blocks)| ==> PairStamped(Flatten(blocks)[p], n)
    decreases |blocks|
  {
    if |blocks| > 0 {
      var rest := blocks[1..];
      forall i, k | 0 <= i < |rest| && 0 <= k < |rest[i]| ensures PairStamped(rest[i][k], n) {
        assert rest[i] == blocks[i + 1];
      }
      forall i | 0 <= i < |rest| ensures |rest[i]| == |Filter(IsText, events[1..][i])| {
        assert rest[i] == blocks[i + 1];
      }
      FlattenStamped(rest, events[1..], n);
      var f := Flatten(blocks);
      assert f == blocks[0] + Flatten(rest);
      forall p | 0 <= p < |f| ensures PairStamped(f[p], n) {
        if p < |blocks[0]| {
          assert f[p] == blocks[0][p];
        } else {
          assert f[p] == Flatten(rest)[p - |blocks[0]|];
        }
      }
    }
  }

  /**
    `main` stops without an API key and raises on data `len` refuses. Otherwise the log
    holds one record per text message in the team's replies to the pair prompts, every
    record is stamped with the first and last index of one pair of the items, and the log
    is ordered by pair.
   */
  lemma AgentLogContents(apiKey: Option<string>, data: Json, run: string -> seq<Event>, render: seq<Item> -> string)
    ensures AgentLog(apiKey, data, run, render).MissingKey? <==> apiKey.None? || apiKey.value == ""
    ensures AgentLog(apiKey, data, run, render).Crashed? <==> !(apiKey.None? || apiKey.value == "") && Items(data).None?
    ensures AgentLog(apiKey, data, run, render).Logged? ==>
      var items := Items(data).value;
      var chunks := Chunks(items, ChunkSize);
      var log := AgentLog(apiKey, data, run, render).log;
      |log| == TextMessages(BatchEvents(chunks, |chunks|, run, render))
      && (forall p :: 0 <= p < |log| ==> PairStamped(log[p], |items|))
      && InBatchOrder(log)
  {
    if AgentLog(apiKey, data, run, render).Logged? {
      var items := Items(data).value;
      var chunks := Chunks(items, ChunkSize);
      LogStamped(items, BatchEvents(chunks, |chunks|, run, render));
    }
  }

  /** Whatever the team replies, the flattened records count its text messages and carry their pair's bounds, in pair order. */
  lemma LogStamped(items: seq<Item>, events: seq<seq<Event>>)
    requires |events| == |Chunks(items, ChunkSize)|
    ensures var log := Flatten(StampRecords(Chunks(items, ChunkSize), events));
      |log| == TextMessages(events)
      && (forall p :: 0 <= p < |log| ==> PairStamped(log[p], |items|))
      && InBatchOrder(log)
  {
    var chunks := Chunks(items, ChunkSize);
    var results := StampRecords(chunks, events);
    StampsSpec(items, events);
    forall i | 0 <= i < |results| ensures |results[i]| == |Filter(IsText, events[i])| {
      ChunkRecordsSpec(2 * i, |chunks[i]|, events[i]);
    }
    forall i, k | 0 <= i < |results| && 0 <= k < |results[i]| ensures PairStamped(results[i][k], |items|) {
      BatchBounds(items, i);
    }
    FlattenStamped(results, events, |items|);
  }

  /**
    `main`: the key check, the pairs cut by the range-step loop, the batches run through the
    team (their results in task order) and flattened into the log.
   */
  method DataAgentMain(apiKey: Option<string>, data: Json, run: string -> seq<Event>, render: seq<Item> -> string)
    returns (result: AgentRun)
    ensures result == AgentLog(apiKey, data, run, render)
  {
    if apiKey.None? || apiKey.value == "" {
      return MissingKey;
    }
    var items := Items(data);
    if items.None? {
      return Crashed;
    }
    var chunks := ChunkSlices(items.value, ChunkSize);
    var totalRecords := |chunks|;
    var results := BatchResults(chunks, totalRecords, run, render);
    result := Logged(Flatten(results));
  }
}
