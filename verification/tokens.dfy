/** The markup fragments of build.py (lines 18-27) after Python has resolved
    its escapes and `str.format` has filled the placeholders. `str.format`
    copies an argument verbatim, so each token is literal text around its
    arguments. */
module Tokens {
  import opened Text

  /** Eight blanks: the indentation the projects builder puts after bullets. */
  const Indent: string := Spaces(8)

  /** `IMPORT_TOKEN`: one `\input` line of the entry-point document. */
  function ImportLine(name: string): string
  {
    ImportPrefix + name + ImportSuffix
  }

  const ImportPrefix: string := "\\input{resume/"
  const ImportSuffix: string := ".tex}\n"

  /** `BOLD_ITEM_TOKEN`. */
  function BoldItem(category: string, content: string): string
  {
    "\\textbf{" + category + "}: " + content
  }

  /** What `BOLD_ITEM_NEWLINE_TOKEN` appends to `BOLD_ITEM_TOKEN`:
      a blank, a LaTeX line break `\\` and a newline. */
  const LineBreak: string := " \\\\\n"

  /** `BOLD_ITEM_NEWLINE_TOKEN`. */
  function BoldItemNewline(category: string, content: string): string
  {
    BoldItem(category, content) + LineBreak
  }

  /** `BULLET_ITEM_TOKEN`. */
  function BulletItem(item: string): string
  {
    "\\item {" + item + "}"
  }

  /** `INDENTED_BULLET_ITEM_TOKEN`. */
  function IndentedBulletItem(item: string): string
  {
    "\\hspace{1mm} \\bullet \\hspace{1mm} " + item + " \\newline"
  }

  /** `edu_std_point`: an eight-blank indented `\item`. */
  function EduStdPoint(v: string): string
  {
    Indent + BulletItem(v)
  }

  /** `edu_custom_1`: an unbulleted introductory line. */
  function EduCustom1(v: string): string
  {
    Spaces(9) + v + " \\newline"
  }

  /** `edu_custom_2`: a bullet indented by 1mm. */
  function EduCustom2(v: string): string
  {
    Spaces(9) + "\\hspace{1mm} \\bullet \\hspace{1mm} " + v + " \\newline"
  }

  /** `edu_custom_3`: a bullet indented by 5mm. */
  function EduCustom3(v: string): string
  {
    Spaces(9) + "\\hspace{5mm} \\bullet \\hspace{1mm} " + v + " \\newline"
  }
}
