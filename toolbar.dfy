/** The editor's bottom toolbar: five tools, at most one open at a time; pressing the open tool
    closes it. */
module Toolbar {
  import opened Wrappers

  datatype Tool = Filters | Stickers | Adjust | Text | Draw {
    /** The tool's id in the source. */
    function Id(): string {
      match this
      case Filters => "filters"
      case Stickers => "stickers"
      case Adjust => "adjust"
      case Text => "text"
      case Draw => "draw"
    }
  }

  datatype ToolEntry = ToolEntry(id: Tool, title: string)

  const TOOLS: seq<ToolEntry> := [
    ToolEntry(Filters, "Filters"),
    ToolEntry(Stickers, "Stickers"),
    ToolEntry(Adjust, "Adjust"),
    ToolEntry(Text, "Text"),
    ToolEntry(Draw, "Draw")
  ]

  /** The position of a tool's button. */
  function Position(t: Tool): nat {
    match t
    case Filters => 0
    case Stickers => 1
    case Adjust => 2
    case Text => 3
    case Draw => 4
  }

  /** The buttons, in order, cover every tool exactly once: filters, stickers, adjust, text, draw. */
  lemma ToolsListed()
    ensures |TOOLS| == 5
    ensures forall t: Tool :: Position(t) < |TOOLS| && TOOLS[Position(t)].id == t
    ensures forall i, j | 0 <= i < j < |TOOLS| :: TOOLS[i].id != TOOLS[j].id
  {
  }

  /** `handleToolPress(toolId)`: the tool chosen next, `None` standing for `null`. */
  function HandleToolPress(active: Option<Tool>, tool: Tool): Option<Tool> {
    if active == Some(tool) then None else Some(tool)
  }

  /** Pressing the open tool closes it; pressing any other tool opens that one; either way no other
      tool is open afterwards. */
  lemma PressToggles(active: Option<Tool>, tool: Tool)
    ensures HandleToolPress(active, tool) == None <==> active == Some(tool)
    ensures HandleToolPress(active, tool) != None ==> HandleToolPress(active, tool) == Some(tool)
    ensures forall other: Tool | other != tool :: HandleToolPress(active, tool) != Some(other)
  {
  }

  /** Pressing a tool twice closes it, unless it was the open one, which is then open again. */
  lemma PressTwice(active: Option<Tool>, tool: Tool)
    ensures HandleToolPress(HandleToolPress(active, tool), tool) == (if active == Some(tool) then active else None)
  {
  }
}
