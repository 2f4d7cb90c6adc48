/**
 Tooltip rendering (`renderTooltip`): the last configured tooltip whose
 trigger matches the trimmed input is rendered as a one-segment
 right-aligned block.
 */
module Tooltips {
  import opened Wrappers
  import opened GoStrings
  import opened Ansi
  import opened Blocks

  /**
   A tooltip segment and the outcome of preparing it. What its trigger
   matches is decided by the `invokes` parameter (`shouldInvokeWithTip`).
   */
  datatype Tooltip = Tooltip(
    /** `mapSegmentWithWriter` returned no error. */
    mapped: bool,
    enabled: bool,
    /** The one-segment right-aligned block rendered after `init`. */
    rendered: string,
    /** The same block rendered after `initPlain`. */
    renderedPlain: string
  )

  /**
   The position of the last tooltip the input invokes, or `None` when it
   invokes none; later tooltips override earlier ones.
   */
  function LastMatch(tooltips: seq<Tooltip>, tip: string, invokes: (Tooltip, string) -> bool): (k: Option<nat>)
    ensures k.None? <==> forall j :: 0 <= j < |tooltips| ==> !invokes(tooltips[j], tip)
    ensures k.Some? ==> k.value < |tooltips| && invokes(tooltips[k.value], tip)
    ensures k.Some? ==> forall j :: k.value < j < |tooltips| ==> !invokes(tooltips[j], tip)
  {
    if tooltips == [] then None
    else if invokes(tooltips[|tooltips| - 1], tip) then Some(|tooltips| - 1)
    else LastMatch(tooltips[..|tooltips| - 1], tip, invokes)
  }

  /**
   The output for a selected tooltip: nothing when it failed to map or is
   disabled; zsh gets the colored text; the PowerShells get the console,
   a line clear, the right-alignment cursor moves and the plain text.
   */
  function TooltipOutput(shell: Shell, ansi: AnsiUtils, t: Tooltip, console: string): (out: string)
    ensures !t.mapped || !t.enabled ==> out == ""
    ensures t.mapped && t.enabled && shell == Zsh ==> out == t.rendered
    ensures t.mapped && t.enabled && ClearsAfterBlock(shell) ==> console <= out
    ensures t.mapped && t.enabled && ClearsAfterBlock(shell) ==>
              out[|console|..] == ansi.clearAfter + ansi.carriageForward
                                  + ansi.cursorForRightWrite(t.renderedPlain, 0) + t.renderedPlain
    ensures !(shell == Zsh || ClearsAfterBlock(shell)) ==> out == ""
  {
    if !t.mapped || !t.enabled then ""
    else
      match shell
      case Zsh => t.rendered
      case Pwsh | PowerShell5 =>
        console + ansi.clearAfter + ansi.carriageForward + ansi.cursorForRightWrite(t.renderedPlain, 0)
        + t.renderedPlain
      case _ => ""
  }

  /** `renderTooltip(tip)` against the engine's current console buffer. */
  function RenderTooltip(shell: Shell, ansi: AnsiUtils, tooltips: seq<Tooltip>, tip: string,
                         invokes: (Tooltip, string) -> bool, console: string): (out: string)
    // no tooltip matches the trimmed input: nothing
    ensures (forall j :: 0 <= j < |tooltips| ==> !invokes(tooltips[j], Trim(tip))) ==> out == ""
    // otherwise the last match decides
    ensures forall k :: 0 <= k < |tooltips| && invokes(tooltips[k], Trim(tip))
                        && (forall j :: k < j < |tooltips| ==> !invokes(tooltips[j], Trim(tip)))
                        ==> out == TooltipOutput(shell, ansi, tooltips[k], console)
    // shells other than zsh and the PowerShells get nothing
    ensures !(shell == Zsh || ClearsAfterBlock(shell)) ==> out == ""
  {
    var tip := Trim(tip);
    match LastMatch(tooltips, tip, invokes)
    case None => ""
    case Some(k) =>
      LastMatchIsUnique(tooltips, tip, invokes);
      TooltipOutput(shell, ansi, tooltips[k], console)
  }

  /** Only one position is a match with no match after it, and `LastMatch` finds it. */
  lemma LastMatchIsUnique(tooltips: seq<Tooltip>, tip: string, invokes: (Tooltip, string) -> bool)
    ensures forall k :: 0 <= k < |tooltips| && invokes(tooltips[k], tip)
                        && (forall j :: k < j < |tooltips| ==> !invokes(tooltips[j], tip))
                        ==> LastMatch(tooltips, tip, invokes) == Some(k)
  {
  }
}
