/**
 The data the engine works on: the configured blocks, the global toggles,
 and what the environment reports. A block's segment rendering is not part
 of this model; each block carries the text `renderSegments` produced.
 */
module Blocks {
  import opened Wrappers

  datatype BlockKind = Prompt | RPrompt | Connection | LineBreak

  datatype Alignment = Left | Right

  /** The shells the engine distinguishes; every other shell is `OtherShell`. */
  datatype Shell = Zsh | Bash | Pwsh | PowerShell5 | Plain | OtherShell

  datatype Platform = Windows | Linux | Darwin

  datatype Block = Block(
    kind: BlockKind,
    alignment: Alignment,
    /** Emit a line break before the block. */
    newline: bool,
    verticalOffset: int,
    horizontalOffset: int,
    /** `enabled()` after initialisation. */
    enabled: bool,
    /** `renderSegments()` after the colored `init`. */
    rendered: string,
    /** `renderSegments()` after `initPlain` (used for bash right prompts). */
    renderedPlain: string
  )

  datatype Config = Config(
    blocks: seq<Block>,
    consoleTitle: bool,
    finalSpace: bool,
    osc99: bool
  )

  datatype Env = Env(
    shell: Shell,
    platform: Platform,
    /** The `Columns` value parsed from `mode con` (0 when it did not parse). */
    modeConColumns: int,
    /** `getTerminalWidth()`; `None` when it returned an error. */
    terminalWidth: Option<int>,
    /** The `--eval` command-line flag. */
    eval: bool,
    /** `consoleTitle.getConsoleTitle()`. */
    titleEscape: string,
    /** `consolePwd` of the working directory, translated by `wslpath` under WSL. */
    pwdEscape: string
  )

  /** The shells whose terminal needs the end of line cleared after every block. */
  predicate ClearsAfterBlock(shell: Shell) {
    shell == Pwsh || shell == PowerShell5
  }
}
