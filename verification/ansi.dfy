/**
 The ANSI helpers the engine calls. Their implementations are not part of
 this model: each is a field of `AnsiUtils`, supplied by the caller. Lemmas
 that need a property of them state it as a hypothesis (`AdditiveOverCopies`,
 `KeepsFitting`).
 */
module Ansi {
  import opened GoStrings

  datatype AnsiUtils = AnsiUtils(
    /** lenWithoutANSI: visible width, escape sequences excluded. */
    visibleLen: string -> nat,
    /** truncateTo(text, n): keeps the first n visible characters. */
    truncateTo: (string, int) -> string,
    /** truncateBy(text, n): drops the last n visible characters. */
    truncateBy: (string, int) -> string,
    carriageForward: string,
    /** getCursorForRightWrite(text, offset): moves to the column where text ends at the right edge. */
    cursorForRightWrite: (string, int) -> string,
    changeLine: int -> string,
    clearAfter: string,
    creset: string,
    saveCursorPosition: string,
    restoreCursorPosition: string,
    /** Sprintf(bashFormat, text): wraps a right prompt for bash. */
    bashFormat: string -> string
  )

  /**
   Visible width adds up when whole copies of `unit` are joined: the empty
   text has width 0, and prefixing one more copy adds the unit's width. This
   holds for a width helper that hides escape sequences as long as the unit
   holds only whole sequences, since no sequence is split at a join.
   */
  ghost predicate AdditiveOverCopies(a: AnsiUtils, unit: string) {
    && a.visibleLen([]) == 0
    && forall k: nat {:trigger Repeat(unit, k)} ::
         a.visibleLen(unit + Repeat(unit, k)) == a.visibleLen(unit) + a.visibleLen(Repeat(unit, k))
  }

  /** Truncating `s` to a width `n` it already fits in leaves it alone. */
  ghost predicate KeepsFitting(a: AnsiUtils, s: string, n: int) {
    a.visibleLen(s) <= n ==> a.truncateTo(s, n) == s
  }

  /** When widths add up over copies of `s`, `n` copies are `n` times as wide. */
  lemma {:induction false} RepeatWidth(a: AnsiUtils, s: string, n: nat)
    requires AdditiveOverCopies(a, s)
    ensures a.visibleLen(Repeat(s, n)) == n * a.visibleLen(s)
  {
    if n == 0 {
    } else {
      RepeatWidth(a, s, n - 1);
      assert a.visibleLen(s + Repeat(s, n - 1)) == a.visibleLen(s) + a.visibleLen(Repeat(s, n - 1));
    }
  }
}
