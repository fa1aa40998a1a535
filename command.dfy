/** `Command`: a Nagios command object, a name and the command line it runs. */
module Command {
  import opened Wrappers
  import opened JavaString
  import opened ObjectFormat

  /** The constructor's two arguments; `getName` and `getLine` are the fields. */
  datatype Command = Command(name: string, line: string)

  /** Two lines: the name under `command_name`, then the command line under `command_line`. */
  function CommandDefinition(c: Command): Definition {
    Definition("command", [Field("command_name", c.name), Field("command_line", c.line)])
  }

  /** `getObjectDefinitions()`: one `define command{ ... }` block. */
  function ObjectDefinitions(c: Command): (text: string)
    ensures StartsWith(text, "define command{\n") && EndsWith(text, "}\n\n")
  {
    RenderFrame(CommandDefinition(c));
    Render(CommandDefinition(c))
  }

  /** The text is exactly the two lines, name then command line, copied verbatim with no escaping. */
  lemma ExactText(c: Command)
    ensures ObjectDefinitions(c)
         == "define " + "command" + "{\n"
          + Line(Field("command_name", c.name)) + Line(Field("command_line", c.line))
          + "}\n\n"
  {
    var l0 := Line(Field("command_name", c.name));
    var l1 := Line(Field("command_line", c.line));
    FieldLinesOfTwo(Field("command_name", c.name), Field("command_line", c.line));
    assert "define " + "command" + "{\n" + (l0 + l1) + "}\n\n"
        == "define " + "command" + "{\n" + l0 + l1 + "}\n\n";
  }

  /** A command whose name and line hold no newline reads back as itself. */
  lemma ReadBack(c: Command)
    requires '\n' !in c.name && '\n' !in c.line
    ensures ParseAll(ObjectDefinitions(c)) == Some([CommandDefinition(c)])
    ensures CommandDefinition(c).fields[0].value == c.name && CommandDefinition(c).fields[1].value == c.line
  {
    ReadBackOne(CommandDefinition(c));
  }
}
