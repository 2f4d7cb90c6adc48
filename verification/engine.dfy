/**
 The layout loop (`render`), its width accounting (`getBlockLength`) and the
 final shell dispatch (`print`).
 */
module Engine {
  import opened Wrappers
  import opened GoStrings
  import opened Ansi
  import opened Blocks
  import opened BlockRender
  import opened Gate

  /** Added to a Connection block's budget to compensate for the cursor origin. */
  const ConnectionCorrection := 3

  /**
   `getBlockLength`: the columns a block adds to the running line length.
   A leading newline, a LineBreak and a Connection add nothing; a Prompt or
   RPrompt block adds the visible width of its colored rendering, whether
   or not it is enabled.
   */
  function BlockLength(ansi: AnsiUtils, b: Block): nat {
    if b.newline then 0
    else
      match b.kind
      case LineBreak => 0
      case Connection => 0
      case Prompt => ansi.visibleLen(b.rendered)
      case RPrompt => ansi.visibleLen(b.rendered)
  }

  /** The running `lineLength` when block `n` is reached: never reset, not even by a newline. */
  function LineLength(ansi: AnsiUtils, blocks: seq<Block>, n: nat): nat
    requires n <= |blocks|
  {
    if n == 0 then 0 else LineLength(ansi, blocks, n - 1) + BlockLength(ansi, blocks[n - 1])
  }

  /**
   A block's width contribution depends only on its kind, its newline flag
   and its colored rendering: not on whether it is enabled, nor on its
   plain rendering, alignment or offsets.
   */
  lemma BlockLengthIgnoresEnabled(ansi: AnsiUtils, b: Block, enabled: bool, plain: string, alignment: Alignment,
                                  v: int, h: int)
    ensures BlockLength(ansi, b.(enabled := enabled, renderedPlain := plain, alignment := alignment,
                                 verticalOffset := v, horizontalOffset := h))
            == BlockLength(ansi, b)
    ensures b.kind == Prompt || b.kind == RPrompt ==>
              BlockLength(ansi, b) == (if b.newline then 0 else ansi.visibleLen(b.rendered))
  {
  }

  /** The line length only grows along the block sequence. */
  lemma {:induction false} LineLengthMonotone(ansi: AnsiUtils, blocks: seq<Block>, k: nat, n: nat)
    requires k <= n <= |blocks|
    ensures LineLength(ansi, blocks, k) <= LineLength(ansi, blocks, n)
    ensures (forall j :: k <= j < n ==> BlockLength(ansi, blocks[j]) == 0)
              ==> LineLength(ansi, blocks, k) == LineLength(ansi, blocks, n)
  {
    if k < n {
      LineLengthMonotone(ansi, blocks, k, n - 1);
    }
  }

  /** The width a Connection block measures against: `mode con`'s Columns on Windows, 0 elsewhere. */
  function ConsoleWidth(env: Env): int {
    if env.platform == Windows then env.modeConColumns else 0
  }

  /**
   The budget `render` hands to a block: a Connection gets the console width
   minus the line length plus the correction, every other block -1.
   */
  function MaxLength(env: Env, b: Block, lineLength: int): int {
    if b.kind == Connection then ConsoleWidth(env) - lineLength + ConnectionCorrection else -1
  }

  /** The block configured just before block `i`, enabled or not. */
  function Previous(blocks: seq<Block>, i: nat): Option<Block>
    requires i < |blocks|
  {
    if i == 0 then None else Some(blocks[i - 1])
  }

  /** The configuration renders without a panic: every block gets a budget it can handle. */
  predicate Renderable(env: Env, ansi: AnsiUtils, blocks: seq<Block>) {
    forall i :: 0 <= i < |blocks| ==> RenderableAt(env, ansi, blocks, i)
  }

  /** Block `i` can be rendered with the budget `render` gives it. */
  predicate RenderableAt(env: Env, ansi: AnsiUtils, blocks: seq<Block>, i: nat)
    requires i < |blocks|
  {
    CanRender(ansi, blocks[i], Previous(blocks, i), MaxLength(env, blocks[i], LineLength(ansi, blocks, i)))
  }

  /**
   The state after the first `n` blocks: each block rendered in order, with
   the budget computed from the line length of all the blocks before it.
   */
  function Layout(env: Env, ansi: AnsiUtils, blocks: seq<Block>, n: nat): Canvas
    requires n <= |blocks| && Renderable(env, ansi, blocks)
  {
    if n == 0 then Canvas("", "")
    else
      assert RenderableAt(env, ansi, blocks, n - 1);
      RenderBlock(env.shell, ansi, Layout(env, ansi, blocks, n - 1), blocks[n - 1],
                  Previous(blocks, n - 1), MaxLength(env, blocks[n - 1], LineLength(ansi, blocks, n - 1)))
  }

  /** One step of the layout, with its budget spelled out. */
  lemma LayoutStep(env: Env, ansi: AnsiUtils, blocks: seq<Block>, n: nat)
    requires 0 < n <= |blocks| && Renderable(env, ansi, blocks)
    ensures CanRender(ansi, blocks[n - 1], Previous(blocks, n - 1),
                      MaxLength(env, blocks[n - 1], LineLength(ansi, blocks, n - 1)))
    ensures Layout(env, ansi, blocks, n)
              == RenderBlock(env.shell, ansi, Layout(env, ansi, blocks, n - 1), blocks[n - 1],
                             Previous(blocks, n - 1), MaxLength(env, blocks[n - 1], LineLength(ansi, blocks, n - 1)))
  {
    assert RenderableAt(env, ansi, blocks, n - 1);
  }

  /** An enabled RPrompt block: the only kind that sets the deferred right prompt. */
  predicate SetsRPrompt(b: Block) {
    b.enabled && b.kind == RPrompt
  }

  /** The deferred right prompt alone: each enabled RPrompt block replaces it. */
  function RPromptAfter(shell: Shell, ansi: AnsiUtils, blocks: seq<Block>, n: nat): string
    requires n <= |blocks|
  {
    if n == 0 then ""
    else if SetsRPrompt(blocks[n - 1]) then StoredRPrompt(shell, ansi, blocks[n - 1])
    else RPromptAfter(shell, ansi, blocks, n - 1)
  }

  /** The layout's deferred right prompt is the one the right-prompt fold keeps. */
  lemma {:induction false} LayoutRPrompt(env: Env, ansi: AnsiUtils, blocks: seq<Block>, n: nat)
    requires n <= |blocks| && Renderable(env, ansi, blocks)
    ensures Layout(env, ansi, blocks, n).rprompt == RPromptAfter(env.shell, ansi, blocks, n)
  {
    if n > 0 {
      LayoutRPrompt(env, ansi, blocks, n - 1);
      LayoutStep(env, ansi, blocks, n);
    }
  }

  /** With no enabled RPrompt block among the first `n`, the right-prompt fold is empty. */
  lemma {:induction false} RPromptAfterNone(shell: Shell, ansi: AnsiUtils, blocks: seq<Block>, n: nat)
    requires n <= |blocks|
    requires forall j :: 0 <= j < n ==> !SetsRPrompt(blocks[j])
    ensures RPromptAfter(shell, ansi, blocks, n) == ""
  {
    if n > 0 {
      RPromptAfterNone(shell, ansi, blocks, n - 1);
    }
  }

  /** When block `j` is the last enabled RPrompt block among the first `n`, the fold keeps its text. */
  lemma {:induction false} RPromptAfterLast(shell: Shell, ansi: AnsiUtils, blocks: seq<Block>, j: nat, n: nat)
    requires j < n <= |blocks| && SetsRPrompt(blocks[j])
    requires forall k :: j < k < n ==> !SetsRPrompt(blocks[k])
    ensures RPromptAfter(shell, ansi, blocks, n) == StoredRPrompt(shell, ansi, blocks[j])
  {
    if j < n - 1 {
      assert !SetsRPrompt(blocks[n - 1]);
      RPromptAfterLast(shell, ansi, blocks, j, n - 1);
    }
  }

  /**
   The deferred right prompt after `n` blocks is empty when no enabled
   RPrompt block came before, and otherwise is the stored text of the last
   enabled RPrompt block.
   */
  lemma {:induction false} DeferredRPromptIsLast(env: Env, ansi: AnsiUtils, blocks: seq<Block>, n: nat)
    requires n <= |blocks| && Renderable(env, ansi, blocks)
    ensures (forall j :: 0 <= j < n ==> !SetsRPrompt(blocks[j])) ==> Layout(env, ansi, blocks, n).rprompt == ""
    ensures forall j :: 0 <= j < n && SetsRPrompt(blocks[j]) && (forall k :: j < k < n ==> !SetsRPrompt(blocks[k]))
              ==> Layout(env, ansi, blocks, n).rprompt == StoredRPrompt(env.shell, ansi, blocks[j])
  {
    LayoutRPrompt(env, ansi, blocks, n);
    if forall j :: 0 <= j < n ==> !SetsRPrompt(blocks[j]) {
      RPromptAfterNone(env.shell, ansi, blocks, n);
    }
    forall j | 0 <= j < n && SetsRPrompt(blocks[j]) && (forall k :: j < k < n ==> !SetsRPrompt(blocks[k]))
      ensures Layout(env, ansi, blocks, n).rprompt == StoredRPrompt(env.shell, ansi, blocks[j])
    {
      RPromptAfterLast(env.shell, ansi, blocks, j, n);
    }
  }

  /** Block `j` is a right-aligned block that erases after a Connection. */
  predicate ErasesAt(blocks: seq<Block>, j: nat)
    requires j < |blocks|
  {
    ErasesBefore(blocks[j], Previous(blocks, j))
  }

  /**
   Without a right-aligned block erasing after a Connection, rendering more
   blocks only appends to the console.
   */
  lemma {:induction false} ConsoleOnlyGrows(env: Env, ansi: AnsiUtils, blocks: seq<Block>, k: nat, n: nat)
    requires k <= n <= |blocks| && Renderable(env, ansi, blocks)
    requires forall j :: k <= j < n ==> !ErasesAt(blocks, j)
    ensures Layout(env, ansi, blocks, k).console <= Layout(env, ansi, blocks, n).console
  {
    if k < n {
      ConsoleOnlyGrows(env, ansi, blocks, k, n - 1);
      GrowStep(env, ansi, blocks, k, n);
    }
  }

  /** Extending a stretch that only appended by one block that does not erase keeps it appending. */
  lemma GrowStep(env: Env, ansi: AnsiUtils, blocks: seq<Block>, k: nat, n: nat)
    requires k < n <= |blocks| && Renderable(env, ansi, blocks)
    requires !ErasesAt(blocks, n - 1)
    requires Layout(env, ansi, blocks, k).console <= Layout(env, ansi, blocks, n - 1).console
    ensures Layout(env, ansi, blocks, k).console <= Layout(env, ansi, blocks, n).console
  {
    LayoutAppends(env, ansi, blocks, n);
    PrefixTransitive(Layout(env, ansi, blocks, k).console, Layout(env, ansi, blocks, n - 1).console,
                     Layout(env, ansi, blocks, n).console);
  }

  lemma PrefixTransitive(a: string, b: string, c: string)
    requires a <= b && b <= c
    ensures a <= c
  {
  }

  /** One step of the layout without a right-aligned erase only appends. */
  lemma LayoutAppends(env: Env, ansi: AnsiUtils, blocks: seq<Block>, n: nat)
    requires 0 < n <= |blocks| && Renderable(env, ansi, blocks)
    requires !ErasesAt(blocks, n - 1)
    ensures Layout(env, ansi, blocks, n - 1).console <= Layout(env, ansi, blocks, n).console
  {
    LayoutStep(env, ansi, blocks, n);
  }

  /**
   Inside `render`, an enabled left-aligned Prompt block writes its text
   whole: it never gets a finite budget, so it is never truncated.
   */
  lemma PromptWrittenWhole(env: Env, ansi: AnsiUtils, blocks: seq<Block>, i: nat)
    requires i < |blocks| && Renderable(env, ansi, blocks)
    requires blocks[i].enabled && blocks[i].kind == Prompt && blocks[i].alignment == Left
    ensures Layout(env, ansi, blocks, i + 1).console
              == Layout(env, ansi, blocks, i).console + NewlineLead(blocks[i]) + OffsetEscape(ansi, blocks[i])
                 + blocks[i].rendered + ClearTail(env.shell, ansi)
  {
  }

  /**
   Inside `render`, an enabled right-aligned Prompt block that does not
   follow a Connection is also written whole, after the cursor moves that
   right-align it.
   */
  lemma RightPromptWrittenWhole(env: Env, ansi: AnsiUtils, blocks: seq<Block>, i: nat)
    requires i < |blocks| && Renderable(env, ansi, blocks)
    requires blocks[i].enabled && blocks[i].kind == Prompt && blocks[i].alignment == Right
    requires !ErasesBefore(blocks[i], Previous(blocks, i))
    ensures Layout(env, ansi, blocks, i + 1).console
              == Layout(env, ansi, blocks, i).console + NewlineLead(blocks[i]) + OffsetEscape(ansi, blocks[i])
                 + ansi.carriageForward + ansi.cursorForRightWrite(blocks[i].rendered, blocks[i].horizontalOffset)
                 + blocks[i].rendered + ClearTail(env.shell, ansi)
  {
    LayoutStep(env, ansi, blocks, i + 1);
  }

  /**
   `backspace` inside `render`: a right-aligned Prompt block configured
   right after a Connection block first cuts its own visible width off the
   console (with `truncateBy`), then right-aligns and writes its whole text.
   */
  lemma RightPromptAfterConnectionErases(env: Env, ansi: AnsiUtils, blocks: seq<Block>, i: nat)
    requires 0 < i < |blocks| && Renderable(env, ansi, blocks)
    requires blocks[i].enabled && blocks[i].kind == Prompt && blocks[i].alignment == Right
    requires blocks[i - 1].kind == Connection
    ensures Layout(env, ansi, blocks, i + 1).console
              == ansi.truncateBy(Layout(env, ansi, blocks, i).console + NewlineLead(blocks[i])
                                 + OffsetEscape(ansi, blocks[i]),
                                 ansi.visibleLen(blocks[i].rendered))
                 + ansi.carriageForward + ansi.cursorForRightWrite(blocks[i].rendered, blocks[i].horizontalOffset)
                 + blocks[i].rendered + ClearTail(env.shell, ansi)
  {
    LayoutStep(env, ansi, blocks, i + 1);
  }

  /**
   Inside `render`, an enabled Connection block writes the fill for the
   console width minus the width of every block before it plus 3 (off
   Windows: 3 minus that width), and leaves the line length unchanged.
   */
  lemma ConnectionFillInLayout(env: Env, ansi: AnsiUtils, blocks: seq<Block>, i: nat)
    requires i < |blocks| && Renderable(env, ansi, blocks)
    requires blocks[i].enabled && blocks[i].kind == Connection
    ensures LineLength(ansi, blocks, i + 1) == LineLength(ansi, blocks, i)
    ensures ansi.visibleLen(blocks[i].rendered) > 0 && ConsoleWidth(env) - LineLength(ansi, blocks, i) + 3 >= 1
    ensures Layout(env, ansi, blocks, i + 1).console
              == Layout(env, ansi, blocks, i).console + NewlineLead(blocks[i])
                 + ConnectionFill(ansi, blocks[i].rendered, ConsoleWidth(env) - LineLength(ansi, blocks, i) + 3)
                 + ClearTail(env.shell, ansi)
    ensures env.platform != Windows ==>
              Layout(env, ansi, blocks, i + 1).console
              == Layout(env, ansi, blocks, i).console + NewlineLead(blocks[i])
                 + ConnectionFill(ansi, blocks[i].rendered, 3 - LineLength(ansi, blocks, i))
                 + ClearTail(env.shell, ansi)
  {
    LayoutStep(env, ansi, blocks, i + 1);
  }

  /**
   Off Windows a Connection's budget is `3 - lineLength`, so an enabled
   Connection block reached after 3 or more visible columns would give
   `strings.Repeat` a negative count: the source panics, and no such
   configuration is renderable.
   */
  lemma ConnectionPanicsOffWindows(env: Env, ansi: AnsiUtils, blocks: seq<Block>, i: nat)
    requires env.platform != Windows && i < |blocks|
    requires blocks[i].enabled && blocks[i].kind == Connection
    requires LineLength(ansi, blocks, i) >= 3
    ensures !RenderableAt(env, ansi, blocks, i)
    ensures !Renderable(env, ansi, blocks)
  {
  }

  /**
   The common Linux case: a Prompt block at least 3 columns wide followed
   by an enabled Connection block cannot be rendered.
   */
  lemma WidePromptThenConnectionOffWindows(env: Env, ansi: AnsiUtils, p: Block, c: Block)
    requires env.platform != Windows
    requires p.kind == Prompt && !p.newline && ansi.visibleLen(p.rendered) >= 3
    requires c.enabled && c.kind == Connection
    ensures !Renderable(env, ansi, [p, c])
  {
    ConnectionPanicsOffWindows(env, ansi, [p, c], 1);
  }

  /**
   Two enabled, plain left-aligned Prompt blocks "A" and "B" on a shell that
   needs no line clearing leave "AB" in the console.
   */
  lemma TwoLeftPromptsScenario(env: Env, ansi: AnsiUtils, a: Block, b: Block)
    requires !ClearsAfterBlock(env.shell)
    requires a == Block(Prompt, Left, false, 0, 0, true, "A", "A")
    requires b == Block(Prompt, Left, false, 0, 0, true, "B", "B")
    ensures Renderable(env, ansi, [a, b])
    ensures Layout(env, ansi, [a, b], 2).console == "AB"
  {
    var blocks := [a, b];
    assert RenderableAt(env, ansi, blocks, 0);
    assert RenderableAt(env, ansi, blocks, 1);
    PromptWrittenWhole(env, ansi, blocks, 0);
    PromptWrittenWhole(env, ansi, blocks, 1);
  }

  /**
   The suffix written after all blocks: the console title when enabled, the
   reset escape, a space when enabled, and with OSC99 the working-directory
   escape.
   */
  function Finish(cfg: Config, env: Env, ansi: AnsiUtils, console: string): (out: string)
    ensures console <= out
    ensures !cfg.osc99 ==>
              out[|console|..] == (if cfg.consoleTitle then env.titleEscape else "") + ansi.creset
                                  + (if cfg.finalSpace then " " else "")
  {
    var out := if cfg.consoleTitle then console + env.titleEscape else console;
    var out := out + ansi.creset;
    var out := if cfg.finalSpace then out + " " else out;
    var out := if cfg.osc99 then out + env.pwdEscape else out;
    assert out == console + out[|console|..];
    out
  }

  /**
   The zsh assignments `PS1="…"` and `RPROMPT="…"`. The PS1 body is the
   prompt with every quote doubled, so it is longer by the number of quotes
   and collapsing them recovers the prompt. The right prompt is inserted
   as is.
   */
  function ZshAssignments(ps1: string, rprompt: string): (out: string)
    ensures |out| == 17 + |ps1| + Occurrences(ps1, '"') + |rprompt|
    ensures out[..5] == "PS1=\""
    ensures out[|out| - |rprompt| - 12..] == "\"\nRPROMPT=\"" + rprompt + "\""
    ensures out[5..|out| - |rprompt| - 12] == DoubleQuotes(ps1)
    ensures CollapseQuotes(out[5..|out| - |rprompt| - 12]) == ps1
  {
    var head := "PS1=\"";
    var body := DoubleQuotes(ps1);
    var tail := "\"\nRPROMPT=\"" + rprompt + "\"";
    assert |head| == 5 && |tail| == |rprompt| + 12;
    var out := head + body + tail;
    assert out[..5] == head;
    assert out[|out| - |rprompt| - 12..] == tail;
    assert out[5..|out| - |rprompt| - 12] == body;
    CollapseDoubleQuotes(ps1);
    out
  }

  /** The shells `print` writes the deferred right prompt for. */
  predicate WritesRPrompt(shell: Shell) {
    shell == Pwsh || shell == PowerShell5 || shell == Bash || shell == Plain
  }

  /** The cursor dance that puts the right prompt at the right edge and comes back. */
  function RightWrite(ansi: AnsiUtils, rprompt: string): string {
    ansi.saveCursorPosition + ansi.carriageForward + ansi.cursorForRightWrite(rprompt, 0)
    + rprompt + ansi.restoreCursorPosition
  }

  /** `print`: the final text for the shell. */
  function Print(env: Env, ansi: AnsiUtils, c: Canvas): (out: string)
    ensures env.shell == Zsh && !env.eval ==> out == c.console
    ensures env.shell == Zsh && env.eval ==> out == ZshAssignments(c.console, c.rprompt)
    ensures env.shell == OtherShell ==> out == c.console
    ensures WritesRPrompt(env.shell) ==> c.console <= out
    ensures WritesRPrompt(env.shell) && c.rprompt != ""
              && CanWriteRPrompt(ansi, env.terminalWidth, c.console, c.rprompt) ==>
              out[|c.console|..] == RightWrite(ansi, c.rprompt)
    ensures WritesRPrompt(env.shell)
              && (c.rprompt == "" || !CanWriteRPrompt(ansi, env.terminalWidth, c.console, c.rprompt)) ==>
              out == c.console
  {
    match env.shell
    case Zsh => if env.eval then ZshAssignments(c.console, c.rprompt) else c.console
    case OtherShell => c.console
    case _ =>
      if c.rprompt == "" || !CanWriteRPrompt(ansi, env.terminalWidth, c.console, c.rprompt) then c.console
      else
        var out := c.console + RightWrite(ansi, c.rprompt);
        assert out[|c.console|..] == RightWrite(ansi, c.rprompt);
        out
  }

  /**
   `render`: the blocks rendered in order while the line length is kept as a
   running sum, then the suffix, then the shell dispatch.
   */
  method Render(cfg: Config, env: Env, ansi: AnsiUtils) returns (out: string)
    requires Renderable(env, ansi, cfg.blocks)
    ensures var c := Layout(env, ansi, cfg.blocks, |cfg.blocks|);
            out == Print(env, ansi, Canvas(Finish(cfg, env, ansi, c.console), c.rprompt))
  {
    var blocks := cfg.blocks;
    var lineLength := 0;
    var canvas := Canvas("", "");
    var i := 0;
    while i < |blocks|
      invariant i <= |blocks|
      invariant lineLength == LineLength(ansi, blocks, i)
      invariant canvas == Layout(env, ansi, blocks, i)
    {
      assert RenderableAt(env, ansi, blocks, i);
      var block := blocks[i];
      var prev := if i != 0 then Some(blocks[i - 1]) else None;
      var maxLength := -1;
      if block.kind == Connection {
        var consoleWidth := 0;
        if env.platform == Windows {
          consoleWidth := env.modeConColumns;
        }
        maxLength := consoleWidth - lineLength + ConnectionCorrection;
      } else {
        lineLength := lineLength + BlockLength(ansi, block);
      }
      canvas := RenderBlock(env.shell, ansi, canvas, block, prev, maxLength);
      i := i + 1;
    }
    var console := Finish(cfg, env, ansi, canvas.console);
    out := Print(env, ansi, Canvas(console, canvas.rprompt));
  }
}
