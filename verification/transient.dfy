/** The transient prompt (`renderTransientPrompt`): a minimal prompt from one template. */
module Transient {
  import opened Wrappers
  import opened GoStrings
  import opened Blocks
  import Engine

  datatype TransientPrompt = TransientPrompt(template: string, background: string, foreground: string)

  /** The template used when the configured one is empty. */
  const DefaultTemplate := "{{ .Shell }}> "

  /** The template actually rendered: the configured one, or the default when it is empty. */
  function EffectiveTemplate(tp: TransientPrompt): string {
    if |tp.template| == 0 then DefaultTemplate else tp.template
  }

  /**
   `renderTransientPrompt`: nothing without a transient prompt; otherwise the
   rendered template in the transient colors, wrapped as zsh assignments
   with an empty right prompt for zsh, as is for the PowerShells, and
   nothing for any other shell. The template engine and the color writer
   are parameters.
   */
  function RenderTransientPrompt(shell: Shell, tp: Option<TransientPrompt>,
                                 renderTemplate: string -> string,
                                 colorWrite: (string, string, string) -> string): (out: string)
    ensures tp.None? ==> out == ""
    ensures tp.Some? && ClearsAfterBlock(shell) ==>
              out == colorWrite(tp.value.background, tp.value.foreground, renderTemplate(EffectiveTemplate(tp.value)))
    ensures tp.Some? && shell == Zsh ==>
              var colored :=
                colorWrite(tp.value.background, tp.value.foreground, renderTemplate(EffectiveTemplate(tp.value)));
              && |out| == 17 + |colored| + Occurrences(colored, '"')
              && out[..5] == "PS1=\"" && out[|out| - 12..] == "\"\nRPROMPT=\"\""
              && out[5..|out| - 12] == DoubleQuotes(colored)
              && CollapseQuotes(out[5..|out| - 12]) == colored
    ensures !(shell == Zsh || ClearsAfterBlock(shell)) ==> out == ""
  {
    match tp
    case None => ""
    case Some(t) =>
      var prompt := renderTemplate(EffectiveTemplate(t));
      var colored := colorWrite(t.background, t.foreground, prompt);
      match shell
      case Zsh => Engine.ZshAssignments(colored, "")
      case Pwsh | PowerShell5 => colored
      case _ => ""
  }
}
