/** Style data (components/.../table/VirtualTableStyle.kt and the border and
    table style presets it builds on): the SGR styling of a cell
    (`SelectionStyle.apply`, ECMA-48 section 8.3.117) and the preset values. */
module Styles {
  /** Control sequence introducer: ESC '['. */
  const CSI: string := "\U{1b}["
  const BOLD: string := CSI + "1m"
  const REVERSE: string := CSI + "7m"
  const RESET: string := CSI + "0m"

  datatype SelectionStyle = SelectionStyle(
    backgroundColor: string,
    foregroundColor: string,
    bold: bool,
    reverse: bool)
  {
    predicate Plain()
    {
      backgroundColor == [] && foregroundColor == [] && !bold && !reverse
    }

    /** The codes `apply` collects: background, foreground, bold, reverse. */
    function Prefix(): (p: string)
      ensures Plain() ==> p == []
    {
      backgroundColor + foregroundColor + (if bold then BOLD else []) + (if reverse then REVERSE else [])
    }

    /** `apply`: the text unchanged when nothing is set, otherwise wrapped in
        the collected codes and the reset sequence. */
    function Apply(text: string): (r: string)
      ensures Plain() ==> r == text
      ensures !Plain() ==> |r| == |Prefix()| + |text| + |RESET|
      ensures !Plain() ==> r[..|Prefix()|] == Prefix() && r[|r| - |RESET|..] == RESET
      ensures !Plain() ==> r[|Prefix()|..|r| - |RESET|] == text
    {
      if Plain() then text else Prefix() + text + RESET
    }
  }

  const NONE := SelectionStyle("", "", false, false)
  const HIGHLIGHT := SelectionStyle("", "", false, true)
  const SELECTION := SelectionStyle(CSI + "48;5;33m", CSI + "97m", false, false)
  const HEADER := SelectionStyle(CSI + "48;5;238m", CSI + "96m", true, false)
  const FOOTER := SelectionStyle(CSI + "48;5;236m", CSI + "37m", false, false)

  /** `NONE` changes nothing; `HIGHLIGHT` is reverse video around the text. */
  lemma NoneAndHighlight(t: string)
    ensures NONE.Apply(t) == t
    ensures HIGHLIGHT.Apply(t) == "\U{1b}[7m" + t + "\U{1b}[0m"
  {
    assert HIGHLIGHT.Prefix() == REVERSE;
  }

  /** The other presets put their colour codes (and bold for HEADER) before
      the text, so a styled cell is never the bare text. */
  lemma ColouredPresets()
    ensures SELECTION.Prefix() == "\U{1b}[48;5;33m\U{1b}[97m"
    ensures HEADER.Prefix() == "\U{1b}[48;5;238m\U{1b}[96m\U{1b}[1m"
    ensures FOOTER.Prefix() == "\U{1b}[48;5;236m\U{1b}[37m"
    ensures !SELECTION.Plain() && !HEADER.Plain() && !FOOTER.Plain()
  {
  }

  datatype BorderChars = BorderChars(
    topLeft: string, topRight: string, bottomLeft: string, bottomRight: string,
    horizontal: string, vertical: string,
    headerLeft: string, headerRight: string, headerCross: string,
    leftCross: string, rightCross: string, cross: string,
    topCross: string, bottomCross: string)

  const UNICODE_BORDERS := BorderChars(
    "┌", "┐", "└", "┘", "─", "│",
    "├", "┤", "┼", "├", "┤", "┼", "┬", "┴")
  const ASCII_BORDERS := BorderChars("+", "+", "+", "+", "-", "|", "+", "+", "+", "+", "+", "+", "+", "+")
  const MINIMAL_BORDERS := BorderChars("", "", "", "", "", " ", "", "", "", "", "", " ", "", "")
  const MARKDOWN_BORDERS := BorderChars("|", "|", "|", "|", "-", "|", "|", "|", "|", "|", "|", "|", "|", "|")

  /** `TableStyle`; the padding is a count of spaces (`" ".repeat(padding)`
      would throw for a negative one). */
  datatype TableStyle = TableStyle(
    borderChars: BorderChars,
    showBorders: bool,
    showHeaderSeparator: bool,
    padding: nat,
    compactMode: bool)

  const UNICODE_TABLE := TableStyle(UNICODE_BORDERS, true, true, 1, false)
  const ASCII_TABLE := TableStyle(ASCII_BORDERS, true, true, 1, false)
  const MINIMAL_TABLE := TableStyle(MINIMAL_BORDERS, false, false, 2, false)
  const MARKDOWN_TABLE := TableStyle(MARKDOWN_BORDERS, true, true, 1, false)
  const COMPACT_TABLE := TableStyle(UNICODE_BORDERS, true, true, 0, true)

  datatype VirtualTableStyle = VirtualTableStyle(
    baseStyle: TableStyle,
    highlightStyle: SelectionStyle,
    selectionStyle: SelectionStyle,
    headerStyle: SelectionStyle,
    footerStyle: SelectionStyle,
    showFooter: bool,
    showKeyHints: bool,
    showScrollIndicator: bool)

  const DEFAULT_STYLE := VirtualTableStyle(UNICODE_TABLE, HIGHLIGHT, SELECTION, HEADER, FOOTER, true, true, true)
  const ASCII_STYLE := DEFAULT_STYLE.(baseStyle := ASCII_TABLE)
  const MINIMAL_STYLE := DEFAULT_STYLE.(baseStyle := MINIMAL_TABLE, showFooter := false, showKeyHints := false, showScrollIndicator := false)
  const COMPACT_STYLE := DEFAULT_STYLE.(baseStyle := COMPACT_TABLE, showKeyHints := false)

  /** DEFAULT shows the footer, the key hints and the scroll indicator;
      MINIMAL shows none of them and no borders; COMPACT drops only the hints. */
  lemma PresetFlags()
    ensures DEFAULT_STYLE.showFooter && DEFAULT_STYLE.showKeyHints && DEFAULT_STYLE.showScrollIndicator
    ensures !MINIMAL_STYLE.showFooter && !MINIMAL_STYLE.showKeyHints && !MINIMAL_STYLE.showScrollIndicator
    ensures !MINIMAL_STYLE.baseStyle.showBorders && MINIMAL_STYLE.baseStyle.padding == 2
    ensures COMPACT_STYLE.showFooter && !COMPACT_STYLE.showKeyHints && COMPACT_STYLE.baseStyle.padding == 0
    ensures DEFAULT_STYLE.highlightStyle == HIGHLIGHT && DEFAULT_STYLE.baseStyle == UNICODE_TABLE
  {
  }
}
