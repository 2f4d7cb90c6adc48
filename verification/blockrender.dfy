/**
 Rendering of one block (`renderBlock`) onto the engine's state: the console
 buffer built so far and the deferred right prompt.
 */
module BlockRender {
  import opened Wrappers
  import opened GoStrings
  import opened Ansi
  import opened Blocks
  import GoInt

  /** The engine's per-render state: the console buffer and the deferred right prompt. */
  datatype Canvas = Canvas(console: string, rprompt: string)

  /**
   What a Prompt block writes for a width budget: the whole text for the
   "no limit" budget -1, the first `maxLength - 1` bytes for a budget above
   1, and nothing for any other budget.
   */
  function ClipPrompt(text: string, maxLength: int): (w: string)
    requires maxLength > 1 ==> maxLength - 1 <= |text|
    ensures maxLength == -1 ==> w == text
    ensures maxLength > 1 ==> w <= text && |w| == maxLength - 1
    ensures maxLength != -1 && maxLength <= 1 ==> w == []
  {
    if maxLength == -1 then text
    else if maxLength > 1 then text[..maxLength - 1]
    else []
  }

  /**
   Copies of a Connection's unit text: `(maxLength - L) / L` with Go's
   truncating division, for a unit of visible width `L`. The copies are
   always narrower than the budget, by at least one unit once the budget
   holds one, and by less than two units.
   */
  function FillCount(maxLength: int, unitWidth: int): (n: nat)
    requires unitWidth > 0 && maxLength >= 1
    ensures n * unitWidth < maxLength
    ensures maxLength >= unitWidth ==> n * unitWidth <= maxLength - unitWidth
    ensures maxLength < unitWidth ==> n == 0
    ensures maxLength - 2 * unitWidth < n * unitWidth
  {
    GoInt.QuoByPositive(maxLength - unitWidth, unitWidth);
    GoInt.Quo(maxLength - unitWidth, unitWidth)
  }

  /** The fill a Connection block writes: nothing for a budget of 1, else the copies cut to the budget. */
  function ConnectionFill(ansi: AnsiUtils, unit: string, maxLength: int): (w: string)
    requires ansi.visibleLen(unit) > 0 && maxLength >= 1
    ensures maxLength == 1 ==> w == []
  {
    if maxLength > 1 then
      ansi.truncateTo(Repeat(unit, FillCount(maxLength, ansi.visibleLen(unit))), maxLength)
    else []
  }

  /**
   When widths add up over copies of the unit and `truncateTo` leaves a run
   of copies alone when it fits the budget, the fill is whole copies of the
   unit, `FillCount` of them, and is therefore always narrower than its
   budget: at most budget minus one unit once the budget
   holds a unit, and more than budget minus two units.
   */
  lemma ConnectionFillWidth(ansi: AnsiUtils, unit: string, maxLength: int)
    requires ansi.visibleLen(unit) > 0 && maxLength > 1
    requires AdditiveOverCopies(ansi, unit)
    requires forall k: nat {:trigger Repeat(unit, k)} :: KeepsFitting(ansi, Repeat(unit, k), maxLength)
    ensures ConnectionFill(ansi, unit, maxLength)
              == Repeat(unit, FillCount(maxLength, ansi.visibleLen(unit)))
    ensures ansi.visibleLen(ConnectionFill(ansi, unit, maxLength))
              == FillCount(maxLength, ansi.visibleLen(unit)) * ansi.visibleLen(unit)
    ensures ansi.visibleLen(ConnectionFill(ansi, unit, maxLength)) < maxLength
    ensures maxLength >= ansi.visibleLen(unit) ==>
              ansi.visibleLen(ConnectionFill(ansi, unit, maxLength)) <= maxLength - ansi.visibleLen(unit)
  {
    var n := FillCount(maxLength, ansi.visibleLen(unit));
    RepeatWidth(ansi, unit, n);
  }

  /** Preconditions under which the source does not panic while rendering `b`. */
  predicate CanRender(ansi: AnsiUtils, b: Block, prev: Option<Block>, maxLength: int) {
    b.enabled ==>
      // a right-aligned block reads the type of the block before it
      && (b.kind == Prompt && b.alignment == Right ==> prev.Some?)
      // the byte slice blockText[:maxLength-1] must be in range
      && (b.kind == Prompt && maxLength > 1 ==> maxLength - 1 <= |b.rendered|)
      // a zero-width unit divides by zero; a budget below 1 repeats a negative count
      && (b.kind == Connection ==> ansi.visibleLen(b.rendered) > 0 && maxLength >= 1)
  }

  function NewlineLead(b: Block): string {
    if b.newline then "\n" else ""
  }

  function OffsetEscape(ansi: AnsiUtils, b: Block): string {
    if b.verticalOffset != 0 then ansi.changeLine(b.verticalOffset) else ""
  }

  function ClearTail(shell: Shell, ansi: AnsiUtils): string {
    if ClearsAfterBlock(shell) then ansi.clearAfter else ""
  }

  /** The right prompt a RPrompt block leaves behind: bash wraps its plain rendering. */
  function StoredRPrompt(shell: Shell, ansi: AnsiUtils, b: Block): string {
    if shell == Bash then ansi.bashFormat(b.renderedPlain) else b.rendered
  }

  /** A right-aligned block that follows a Connection erases its own width first. */
  predicate ErasesBefore(b: Block, prev: Option<Block>) {
    b.enabled && b.kind == Prompt && b.alignment == Right && prev.Some? && prev.value.kind == Connection
  }

  /** `backspace`: drop the last `length` visible characters of the console. */
  function Backspace(ansi: AnsiUtils, console: string, length: int): string {
    ansi.truncateBy(console, length)
  }

  /** `renderBlock(block, maxLength)`, `prev` being the block configured just before `b`. */
  function RenderBlock(shell: Shell, ansi: AnsiUtils, c: Canvas, b: Block, prev: Option<Block>, maxLength: int)
    : (r: Canvas)
    requires CanRender(ansi, b, prev, maxLength)
    // a disabled block leaves no trace, not even its newline
    ensures !b.enabled ==> r == c
    // only an enabled RPrompt block replaces the deferred right prompt
    ensures !(b.enabled && b.kind == RPrompt) ==> r.rprompt == c.rprompt
    // ... and it does not write its text to the console
    ensures b.enabled && b.kind == RPrompt ==>
              r.rprompt == StoredRPrompt(shell, ansi, b)
              && r.console == c.console + NewlineLead(b) + ClearTail(shell, ansi)
    // apart from the right-aligned erase, a block only appends
    ensures !ErasesBefore(b, prev) ==> c.console <= r.console
    ensures b.enabled && b.kind == LineBreak ==>
              r.console == c.console + NewlineLead(b) + "\n" + ClearTail(shell, ansi)
    ensures b.enabled && b.kind == Connection ==>
              r.console == c.console + NewlineLead(b) + ConnectionFill(ansi, b.rendered, maxLength)
                           + ClearTail(shell, ansi)
    ensures b.enabled && b.kind == Prompt && b.alignment == Left ==>
              r.console == c.console + NewlineLead(b) + OffsetEscape(ansi, b)
                           + ClipPrompt(b.rendered, maxLength) + ClearTail(shell, ansi)
    ensures b.enabled && b.kind == Prompt && b.alignment == Right ==>
              var before := c.console + NewlineLead(b) + OffsetEscape(ansi, b);
              var start :=
                if ErasesBefore(b, prev) then Backspace(ansi, before, ansi.visibleLen(b.rendered)) else before;
              r.console == start + ansi.carriageForward + ansi.cursorForRightWrite(b.rendered, b.horizontalOffset)
                           + ClipPrompt(b.rendered, maxLength) + ClearTail(shell, ansi)
  {
    if !b.enabled then c
    else
      var console := c.console + NewlineLead(b);
      var written :=
        match b.kind
        case LineBreak => Canvas(console + "\n", c.rprompt)
        case Prompt =>
          var lead := console + OffsetEscape(ansi, b);
          var text := b.rendered;
          (match b.alignment
           case Right =>
             var erased := if prev.value.kind == Connection then Backspace(ansi, lead, ansi.visibleLen(text)) else lead;
             Canvas(erased + ansi.carriageForward + ansi.cursorForRightWrite(text, b.horizontalOffset)
                    + ClipPrompt(text, maxLength), c.rprompt)
           case Left =>
             Canvas(lead + ClipPrompt(text, maxLength), c.rprompt))
        case RPrompt => Canvas(console, StoredRPrompt(shell, ansi, b))
        case Connection => Canvas(console + ConnectionFill(ansi, b.rendered, maxLength), c.rprompt);
      Canvas(written.console + ClearTail(shell, ansi), written.rprompt)
  }
}
