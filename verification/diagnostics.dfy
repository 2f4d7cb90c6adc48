/**
 The integer and ordering rules of the timing report (`debug`). Clock
 readings are inputs (already in milliseconds); the Printf layout of a
 line is not modelled, only its fields.
 */
module Diagnostics {

  datatype SegmentTiming = SegmentTiming(name: string, enabled: bool, value: string, enabledMs: int, stringMs: int)

  /** What `block.debug()` returns for one block: its longest segment name and its segments' timings. */
  datatype BlockTimings = BlockTimings(longestName: int, timings: seq<SegmentTiming>)

  /** One report line: `name(enabled)`, the duration and the rendered value. */
  datatype ReportRow = ReportRow(caption: string, ms: int, value: string)

  /** Added to the longest segment name to get the name column width. */
  const NamePadding := 7

  /** The duration a line reports: enablement time, plus render time only when enabled. */
  function ReportedMs(t: SegmentTiming): int {
    t.enabledMs + (if t.enabled then t.stringMs else 0)
  }

  /** The largest `longestName` over the blocks, starting from 0. */
  function LongestName(blocks: seq<BlockTimings>): (n: int)
    ensures n >= 0
    ensures forall i :: 0 <= i < |blocks| ==> blocks[i].longestName <= n
    ensures n == 0 || exists i :: 0 <= i < |blocks| && n == blocks[i].longestName
  {
    if blocks == [] then 0
    else
      var rest := LongestName(blocks[..|blocks| - 1]);
      var last := blocks[|blocks| - 1].longestName;
      if last > rest then last else rest
  }

  /**
   Width of the name column: the longest block segment name plus the
   padding. The console-title entry's own name length is not taken into
   account.
   */
  function NameColumn(blocks: seq<BlockTimings>): (w: int)
    ensures w >= NamePadding
    ensures forall i :: 0 <= i < |blocks| ==> blocks[i].longestName + NamePadding <= w
    ensures w == NamePadding || exists i :: 0 <= i < |blocks| && w == blocks[i].longestName + NamePadding
  {
    LongestName(blocks) + NamePadding
  }

  /** The timings of all blocks, block after block, each in its own order. */
  function Flatten(blocks: seq<BlockTimings>): seq<SegmentTiming> {
    if blocks == [] then [] else Flatten(blocks[..|blocks| - 1]) + blocks[|blocks| - 1].timings
  }

  /** Number of timings in the first `n` blocks. */
  function SegmentsBefore(blocks: seq<BlockTimings>, n: nat): nat
    requires n <= |blocks|
  {
    if n == 0 then 0 else SegmentsBefore(blocks, n - 1) + |blocks[n - 1].timings|
  }

  /**
   Segment `j` of block `i` sits at position `SegmentsBefore(blocks, i) + j`
   of the flattened timings: configuration order is preserved.
   */
  lemma {:induction false} FlattenOrder(blocks: seq<BlockTimings>, i: nat, j: nat)
    requires i < |blocks| && j < |blocks[i].timings|
    ensures |Flatten(blocks)| == SegmentsBefore(blocks, |blocks|)
    ensures SegmentsBefore(blocks, i) + j < |Flatten(blocks)|
    ensures Flatten(blocks)[SegmentsBefore(blocks, i) + j] == blocks[i].timings[j]
  {
    var init := blocks[..|blocks| - 1];
    FlattenLength(blocks);
    SegmentsBeforePrefix(blocks, init, i);
    if i < |blocks| - 1 {
      FlattenOrder(init, i, j);
      SegmentsBeforeMonotone(blocks, i + 1, |blocks| - 1);
    }
  }

  lemma {:induction false} FlattenLength(blocks: seq<BlockTimings>)
    ensures |Flatten(blocks)| == SegmentsBefore(blocks, |blocks|)
  {
    if blocks != [] {
      var init := blocks[..|blocks| - 1];
      FlattenLength(init);
      SegmentsBeforePrefix(blocks, init, |init|);
    }
  }

  lemma {:induction false} SegmentsBeforePrefix(blocks: seq<BlockTimings>, init: seq<BlockTimings>, n: nat)
    requires init <= blocks && n <= |init|
    ensures SegmentsBefore(blocks, n) == SegmentsBefore(init, n)
  {
    if n > 0 {
      SegmentsBeforePrefix(blocks, init, n - 1);
    }
  }

  lemma {:induction false} SegmentsBeforeMonotone(blocks: seq<BlockTimings>, k: nat, n: nat)
    requires k <= n <= |blocks|
    ensures SegmentsBefore(blocks, k) <= SegmentsBefore(blocks, n)
  {
    if k < n {
      SegmentsBeforeMonotone(blocks, k, n - 1);
    }
  }

  function BoolText(b: bool): string {
    if b then "true" else "false"
  }

  function Row(t: SegmentTiming): ReportRow {
    ReportRow(t.name + "(" + BoolText(t.enabled) + ")", ReportedMs(t), t.value)
  }

  /**
   The report rows: the console title first (enablement time 0, enabled
   when the title is configured), then every block's segments in order.
   */
  function Report(consoleTitle: bool, titleText: string, titleMs: int, blocks: seq<BlockTimings>)
    : (rows: seq<ReportRow>)
    ensures |rows| == 1 + |Flatten(blocks)| == 1 + SegmentsBefore(blocks, |blocks|)
    ensures rows[0] == ReportRow("ConsoleTitle(" + BoolText(consoleTitle) + ")",
                                 if consoleTitle then titleMs else 0, titleText)
    ensures forall k :: 1 <= k < |rows| ==> rows[k] == Row(Flatten(blocks)[k - 1])
  {
    FlattenLength(blocks);
    var title := SegmentTiming("ConsoleTitle", consoleTitle, titleText, 0, titleMs);
    var timings := [title] + Flatten(blocks);
    seq(|timings|, k requires 0 <= k < |timings| => Row(timings[k]))
  }
}
