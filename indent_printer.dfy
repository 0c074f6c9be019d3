/** MontiCore's IndentPrinter, reduced to what the printers rely on: an
    append-only text buffer and an indentation level. The whitespace the
    library inserts at line starts for the level is not rendered here. */
module IndentPrinting {

  /** The line break `println` writes. */
  const Newline: string := "\n"

  class IndentPrinter {
    var content: string
    var indentation: int

    constructor ()
      ensures content == "" && indentation == 0
    {
      content := "";
      indentation := 0;
    }

    /** getContent: everything printed since the buffer was last cleared. */
    function GetContent(): string
      reads this
    {
      content
    }

    method Print(s: string)
      modifies this
      ensures content == old(content) + s && indentation == old(indentation)
    {
      content := content + s;
    }

    /** println(s); `println()` is `Println("")`. */
    method Println(s: string)
      modifies this
      ensures content == old(content) + s + Newline && indentation == old(indentation)
    {
      content := content + s + Newline;
    }

    method Indent()
      modifies this
      ensures indentation == old(indentation) + 1 && content == old(content)
    {
      indentation := indentation + 1;
    }

    method Unindent()
      modifies this
      ensures indentation == old(indentation) - 1 && content == old(content)
    {
      indentation := indentation - 1;
    }

    /** clearBuffer: forget the text; the level is kept. */
    method ClearBuffer()
      modifies this
      ensures content == "" && indentation == old(indentation)
    {
      content := "";
    }
  }
}
