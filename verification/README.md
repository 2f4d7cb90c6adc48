# oh-my-posh prompt engine — Dafny model

This project models the prompt layout engine of oh-my-posh (`src/engine.go`):
the part that walks the configured blocks in order and builds the exact
string a shell uses as its prompt.

- **Layout loop** (`render`, `getBlockLength`): a left-to-right fold over the
  blocks. The running `lineLength` is the sum of `getBlockLength` over
  the earlier blocks: the visible width of a Prompt or RPrompt block without
  `newline`, and 0 for every other block. A Connection block gets the budget
  `consoleWidth - lineLength + 3`; every other block gets `-1`. After the
  blocks come the console title, the reset escape, the final space and, with
  OSC99, the working-directory escape.
- **Per-block rendering** (`renderBlock`, `backspace`): Prompt blocks are
  written left or right aligned. A right-aligned block first erases its own
  width when the block configured before it is a Connection. RPrompt blocks
  are stored as the deferred right prompt. Connection blocks repeat their
  unit text and cut it to the budget.
- **Right-prompt gate** (`canWriteRPrompt`): the deferred right prompt is
  written only when it leaves 30 free columns after the prompt's last
  visual line. The gate fails open when the terminal width is unknown or 0.
- **Shell dispatch** (`print`): zsh gets `PS1=`/`RPROMPT=` assignments with
  doubled quotes when `--eval` is given. pwsh, powershell5, bash and plain
  get the right prompt appended when the gate passes.
- **Tooltips, transient prompt and timing report** (`renderTooltip`,
  `renderTransientPrompt`, `debug`): the selection and dispatch rules.

Everything outside `engine.go` is a parameter:
- the ANSI helpers and escape strings are the fields of `Ansi.AnsiUtils`;
- each block's rendered segment text and `enabled()` flag are fields of `Blocks.Block`;
- the shell, the platform, the `mode con` column count, the terminal width
  (or its error), the `--eval` flag, the console-title escape and the
  working-directory escape are fields of `Blocks.Env`;
- the template engine and the color writer are function parameters.

Lemmas that need a property of the ANSI helpers state it as a hypothesis:
visible widths add up when whole copies of one unit text are joined
(`Ansi.AdditiveOverCopies`), and `truncateTo` leaves one given text unchanged
when it already fits the given width (`Ansi.KeepsFitting`). Both are stated
for the particular texts a lemma is about rather than for every string: a
width helper that hides escape sequences is not additive when a sequence is
split across a join, but it is additive over copies of a unit that holds only
whole sequences.

A Go `string` is a byte sequence. Here it is `seq<char>`, one `char` per
byte, so `blockText[:n]` is the element slice `text[..n]`. Go's `/` and `%`
truncate toward zero; `GoInt.Quo` and `GoInt.Rem` model them.

Where the code panics, the model has a precondition (`BlockRender.CanRender`,
`Engine.Renderable`):
- an enabled right-aligned Prompt block in first position dereferences a nil previous block;
- a Connection unit of visible width 0 divides by zero;
- a Connection budget below 1 gives `strings.Repeat` a negative count.
  Off Windows the budget is `3 - lineLength`, so this is the ordinary case
  on Linux and macOS: any enabled Connection block after 3 or more visible
  columns of earlier blocks panics (`Engine.ConnectionPanicsOffWindows`,
  `Engine.WidePromptThenConnectionOffWindows`);
- a Prompt budget more than one above the text length slices out of range.

Some behaviours of the code that are easy to misread:
- **Line clearing.** On pwsh and powershell5 the line is cleared after
  *every* enabled block, RPrompt and LineBreak included, not only after
  Prompt and Connection blocks.
- **OSC99.** With OSC99 on, the working-directory escape is appended and
  `print` still runs. The buffer is not returned as is, and the right prompt
  can still be written.
- **Connection fill width.** The fill is `(maxLength - L) / L` whole copies
  of a unit of width `L`. So it is always narrower than `maxLength`, never
  exactly `maxLength` wide (`BlockRender.ConnectionFillWidth`). Off Windows
  the budget is `3 - lineLength`.
- **Disabled blocks still count.** A disabled Prompt or RPrompt block still
  adds its visible width to `lineLength`. The "previous" block of a
  right-aligned block is the one configured before it, enabled or not.
- **zsh quoting.** The PS1 body has every `"` doubled. Inside a zsh
  double-quoted word, `""` closes the string and reopens it, so the doubling
  drops the quote from the prompt rather than escaping it. The model states
  the doubling as written and makes no claim about what zsh makes of it.
- **Prompt truncation.** Truncation is a byte slice, not a visible-width cut.
  It is only reachable with a budget that `render` never gives a Prompt block.

## Model

| member | source | states |
|---|---|---|
| GoInt.QuoByPositive | src/engine.go:204 | Go's truncating quotient by a positive divisor is negative exactly when the dividend is at most minus the divisor. It is 0 for dividends strictly between minus and plus the divisor. For a non-negative dividend it is the largest multiple count not exceeding it. |
| GoInt.Rem | src/engine.go:48 | Go's remainder of a non-negative prompt width is at least 0 and below the width's absolute value and equals the Euclidean remainder for a positive width. |
| GoStrings.DoubleQuotes | src/engine.go:271 | Doubling the quotes lengthens the text by its number of quotes and leaves quote-free text unchanged. |
| GoStrings.CollapseDoubleQuotes | src/engine.go:270-271 | Collapsing each doubled quote of the escaped text gives back the original text, for every text. |
| GoStrings.Trim | src/engine.go:288 | The trimmed tip neither starts nor ends with a space, is an infix of the input, and everything cut off on either side is spaces. |
| Ansi.RepeatWidth | src/engine.go:204 | When visible widths add up over copies of a text, `n` repeated copies are `n` times its visible width. |
| Gate.AvailableSpace | src/engine.go:44-50 | The free space is width minus prompt width when the prompt fits. When the prompt is wider than a positive width it is width minus prompt width mod width, which lies in `(0, width]`. It is negative for a negative width. |
| Gate.CanWriteRPrompt | src/engine.go:38-54 | The gate is true whenever the width query errors or reports 0, whatever the prompt and right prompt are. It is false for a negative width. For a positive width it is true exactly when the last line's used columns plus the right prompt's width plus 30 fit in the width. |
| BlockRender.ClipPrompt | src/engine.go:182-194 | A budget of -1 writes the whole text. A budget above 1 writes a prefix of exactly budget-1 elements. Any other budget writes nothing. |
| BlockRender.FillCount | src/engine.go:204 | The number of unit copies, `(maxLength-L)/L` truncated, never reaches the budget. It is at most budget-L once the budget holds a unit, 0 below that, and always more than budget-2L. |
| BlockRender.ConnectionFillWidth | src/engine.go:202-210 | When widths add up over copies of the unit and truncation keeps any run of copies that fits the budget, the written fill is exactly that many whole copies of the unit. Its visible width is copies times unit width, strictly below the budget, and at most budget-L. |
| BlockRender.RenderBlock | src/engine.go:149-220 | A disabled block changes nothing, not even a newline. Only an enabled RPrompt block replaces the deferred right prompt (bash-wrapped plain text for bash). It writes only its newline and line clear. Without a right-aligned erase the console only grows. Each kind appends its newline, its body and the line clear in source order; only a Prompt block also writes the vertical-offset escape, between the newline and the body. A right-aligned block after a Connection first applies `truncateBy` with its own visible width. |
| Engine.LineLengthMonotone | src/engine.go:56-103 | The running line length never decreases along the blocks, newline blocks included. It stays constant across blocks that contribute 0. |
| Engine.DeferredRPromptIsLast | src/engine.go:196-201 | After any number of blocks, the deferred right prompt is empty if no enabled RPrompt block came before. Otherwise it is the stored text of the last enabled RPrompt block. |
| Engine.ConsoleOnlyGrows | src/engine.go:164-211 | Over any stretch of blocks with no right-aligned erase after a Connection, the console before the stretch is a prefix of the console after it. |
| Engine.BlockLengthIgnoresEnabled | src/engine.go:124-147 | A block's width contribution does not depend on its enabled flag, plain rendering, alignment or offsets. A Prompt or RPrompt block contributes 0 with a newline and otherwise the visible width of its colored rendering. |
| Engine.PromptWrittenWhole | src/engine.go:188-194 | Within the layout loop, an enabled left-aligned Prompt block appends its rendered text unmodified, between its newline/offset lead and the line clear. |
| Engine.RightPromptWrittenWhole | src/engine.go:174-187 | Within the layout loop, an enabled right-aligned Prompt block not following a Connection appends its lead, the carriage-forward, the cursor move for its text and offset, its whole text and the line clear. |
| Engine.RightPromptAfterConnectionErases | src/engine.go:176-186 | Within the layout loop, a right-aligned Prompt block right after a Connection replaces the console by `truncateBy` of it (lead included) by its own visible width, then right-aligns and writes its whole text. |
| Engine.ConnectionFillInLayout | src/engine.go:79-103 | Within the layout loop, an enabled Connection leaves the line length unchanged and writes the fill for the budget console width minus the width of all earlier blocks plus 3; off Windows that budget is 3 minus that width. |
| Engine.ConnectionPanicsOffWindows | src/engine.go:94-99 | Off Windows, an enabled Connection block reached after 3 or more visible columns gets a budget below 1, so the configuration is not renderable (the source's `strings.Repeat` would panic). |
| Engine.WidePromptThenConnectionOffWindows | src/engine.go:202-204 | Off Windows, a Prompt block at least 3 columns wide followed by an enabled Connection block is not renderable. |
| Engine.TwoLeftPromptsScenario | src/engine.go:188-194 | Two enabled plain left-aligned Prompt blocks "A" and "B" are renderable and leave "AB" in the console on shells without line clearing. |
| Engine.Finish | src/engine.go:105-121 | The suffix only appends to the console. With OSC99 off it is the title (if enabled), then the reset escape, then a space (if enabled), with no working-directory escape. |
| Engine.ZshAssignments | src/engine.go:266-273 | The zsh output is `PS1="`, then the buffer with every `"` doubled (so exactly as many characters longer as the buffer has quotes), then `"\nRPROMPT="`, the right prompt unescaped, and `"`. Collapsing the doubled quotes of the PS1 body gives back the buffer. |
| Engine.Print | src/engine.go:264-285 | zsh without `--eval`, and any shell not named, return the buffer unchanged. zsh with `--eval` returns the assignments. For pwsh, powershell5, bash and plain, the output extends the buffer by the save/forward/cursor/right prompt/restore sequence when the right prompt is non-empty and the gate passes. Otherwise it is the buffer unchanged. |
| Engine.Render | src/engine.go:56-122 | The loop that keeps `lineLength` as a running sum gives the same result as rendering every block with the budget computed from the sum of the widths of all the blocks before it. That result is followed by the suffix and the shell dispatch. |
| Tooltips.LastMatch | src/engine.go:288-298 | No position is found exactly when no tooltip matches. A found position matches and no later tooltip matches. |
| Tooltips.LastMatchIsUnique | src/engine.go:290-295 | Any matching tooltip with no later match is the one selected. |
| Tooltips.TooltipOutput | src/engine.go:299-324 | A tooltip that failed to map or is disabled renders nothing. zsh gets the colored text. The PowerShells get the console followed by the line clear, the carriage-forward, the cursor move for the plain text and the plain text. Every other shell gets nothing. |
| Tooltips.RenderTooltip | src/engine.go:287-325 | With no tooltip matching the trimmed tip the output is empty. Otherwise the last matching tooltip decides the output. Shells other than zsh and the PowerShells get nothing. |
| Transient.RenderTransientPrompt | src/engine.go:327-351 | With no transient prompt the output is empty. The rendered template is the configured one, or `{{ .Shell }}> ` when that is empty, written in the transient colors. The PowerShells get that colored text. zsh gets `PS1="`, the colored text with every quote doubled, and `"\nRPROMPT=""`. Other shells get nothing. |
| Diagnostics.LongestName | src/engine.go:244-249 | The longest name is at least 0, bounds every block's longest segment name, and is 0 or one of them. |
| Diagnostics.NameColumn | src/engine.go:246-252 | The name column is exactly 7 more than the longest block segment name, counting from 0: at least 7, at least 7 more than every block's longest name, and equal to 7 or to one of them plus 7. |
| Diagnostics.FlattenOrder | src/engine.go:240-245 | Segment `j` of block `i` sits at position "segments of the earlier blocks + j" of the collected timings, so configuration order is kept. |
| Diagnostics.Report | src/engine.go:228-260 | The report has one row for the console title followed by one row per block segment. The title row reports the title time only when the title is enabled. Every later row is the corresponding segment timing in order. |

## Left out

- Windows width probing: running `mode con` and parsing its `Columns` line is subprocess I/O. Its parsed value is the input `Env.modeConColumns`.
- `wslpath` translation and `consolePwd`: external commands. The resulting escape is the input `Env.pwdEscape`.
- Segment and block internals (`init`, `initPlain`, `renderSegments`, `enabled`, `shouldInvokeWithTip`, `mapSegmentWithWriter`), the template engine and the color writer are code outside this file. They are inputs or function parameters.
- ANSI escape contents and the `lenWithoutANSI`, `truncateTo` and `truncateBy` implementations are outside this file. They are fields of `Ansi.AnsiUtils`.
- `debug`: clock readings (`time.Now`) are inputs in milliseconds. The Printf layout of each line and the header line are not modelled.
- Go's 64-bit integer overflow is not modelled. Widths and counts are unbounded integers.
- Block types other than `Prompt`, `RPrompt`, `Connection` and `LineBreak` are not modelled: `Blocks.BlockKind` is closed, while the source's block type is an open string. Such a block would write only its newline and, on pwsh and powershell5, the line clear, and add the width of the empty text to `lineLength`.
- Alignment values other than `Left` and `Right` (a Prompt block that writes no text) are not modelled.
- The engine's `ansi.shell` is taken to be the shell `getShellName` reports.
- Panics (nil previous block, division by zero, negative repeat count, slice out of range, nil `Eval` pointer) are excluded by preconditions rather than modelled as outcomes.
- `renderTransientPrompt` assumes the color writer starts empty. `renderTooltip` takes the console buffer as it stands.
- The tooltip search is a scan from the end rather than the source's forward loop that keeps the last match; both select the same tooltip.
