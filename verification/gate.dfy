/**
 The right-prompt collision gate (`canWriteRPrompt`): a deferred right
 prompt is written only when it leaves a fixed margin after the end of the
 left prompt's last visual line.
 */
module Gate {
  import opened Wrappers
  import GoInt
  import opened Ansi

  /** Columns that must stay free between the left prompt and the right prompt. */
  const PromptBreathingRoom := 30

  /**
   Columns left on the line the cursor is on: the width minus the prompt
   width, or, once the prompt spans several lines, the width minus what the
   prompt occupies on its last line.
   */
  function AvailableSpace(consoleWidth: int, promptWidth: nat): (a: int)
    requires consoleWidth != 0
    ensures promptWidth <= consoleWidth ==> a == consoleWidth - promptWidth
    ensures 0 < consoleWidth < promptWidth ==> a == consoleWidth - promptWidth % consoleWidth
    ensures 0 < consoleWidth < promptWidth ==> 0 < a <= consoleWidth
    ensures consoleWidth < 0 ==> a < 0
  {
    var available := consoleWidth - promptWidth;
    if available < 0 then consoleWidth - GoInt.Rem(promptWidth, consoleWidth)
    else available
  }

  /**
   Columns the prompt occupies on its last visual line, for a known positive
   width: a prompt that fits is one line, a longer one leaves its remainder.
   */
  function LastLineUsed(consoleWidth: int, promptWidth: nat): (used: nat)
    requires consoleWidth > 0
    ensures used <= consoleWidth
  {
    if promptWidth <= consoleWidth then promptWidth else promptWidth % consoleWidth
  }

  /**
   `canWriteRPrompt`: true when the terminal width is unknown or zero (fail
   open); otherwise true exactly when the right prompt plus the breathing
   room fits after the prompt's last line.
   */
  function CanWriteRPrompt(ansi: AnsiUtils, terminalWidth: Option<int>, prompt: string, rprompt: string): (ok: bool)
    ensures terminalWidth.None? || terminalWidth == Some(0) ==> ok
    ensures terminalWidth.Some? && terminalWidth.value < 0 ==> !ok
    ensures terminalWidth.Some? && terminalWidth.value > 0 ==>
              (ok <==> LastLineUsed(terminalWidth.value, ansi.visibleLen(prompt))
                         + ansi.visibleLen(rprompt) + PromptBreathingRoom <= terminalWidth.value)
  {
    match terminalWidth
    case None => true
    case Some(consoleWidth) =>
      if consoleWidth == 0 then true
      else
        var availableSpace := AvailableSpace(consoleWidth, ansi.visibleLen(prompt));
        availableSpace - ansi.visibleLen(rprompt) >= PromptBreathingRoom
  }
}
