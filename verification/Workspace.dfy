/** Reading a byte range of a workspace file (tools/scaffold.py). */
module Workspace {
  import opened Options
  import opened Bytes
  import opened Spans
  import Journal

  datatype ReadError = NoSuchFile | NegativeOffset | NegativeLength

  datatype ReadResult = Text(text: string) | ToolError(error: ReadError)

  // A slice whose bounds may lie beyond the end of the bytes.
  function Slice(d: Data, start: nat, end: Option<nat>): Data {
    var stop := if end.Some? && end.value < |d| then end.value else |d|;
    if start < stop then d[start..stop] else []
  }

  function WorkspaceRead(file: Option<Data>, offset: Option<int>, length: Option<int>,
                         decode: Data -> string): ReadResult {
    if file.None? then ToolError(NoSuchFile)
    else if offset.Some? && offset.value < 0 then ToolError(NegativeOffset)
    else if length.Some? && length.value < 0 then ToolError(NegativeLength)
    else
      var start: nat := if offset.Some? then offset.value else 0;
      var end: Option<nat> := if length.Some? then Some(start + length.value) else None;
      Text(decode(Slice(file.value, start, end)))
  }

  // What every read gives: the errors first, in their order, and otherwise the bytes from
  // the offset, or from the beginning, up to the length or to the end of the file.
  lemma ReadIs(file: Option<Data>, offset: Option<int>, length: Option<int>, decode: Data -> string)
    ensures var r := WorkspaceRead(file, offset, length, decode);
            && (r == ToolError(NoSuchFile) <==> file.None?)
            && (r == ToolError(NegativeOffset) <==> file.Some? && offset.Some? && offset.value < 0)
            && (r == ToolError(NegativeLength)
                <==> file.Some? && (offset.Some? ==> offset.value >= 0) && length.Some? && length.value < 0)
            && var start := if offset.Some? then offset.value else 0;
               r.Text? ==>
                 && start >= 0 && (length.Some? ==> length.value >= 0)
                 && var size := |file.value|;
                    && (start >= size ==> r.text == decode([]))
                    && (start < size && (length.None? || start + length.value >= size) ==>
                          r.text == decode(file.value[start..]))
                    && (start < size && length.Some? && start + length.value < size ==>
                          r.text == decode(file.value[start..start + length.value]))
  {
    var start := if offset.Some? then offset.value else 0;
    if file.Some? && 0 <= start < |file.value| {
      assert file.value[start..|file.value|] == file.value[start..];
    }
  }

  // Reading a span of the file gives exactly its bytes, decoded.
  lemma SpanIsReadBack(d: Data, s: Span, decode: Data -> string)
    requires s.End() <= |d|
    ensures WorkspaceRead(Some(d), Some(s.offset), Some(s.length), decode) == Text(decode(d[s.offset..s.End()]))
  {
    assert Slice(d, s.offset, Some(s.End())) == d[s.offset..s.End()];
  }

  // What the journal injection reads at the slice of the last entry is the entry that was
  // appended last, however often the file was rolled.
  lemma LastEntryIsReadBack(ls: seq<Data>, maxBytes: nat, decode: Data -> string)
    requires Journal.AreLines(ls) && ls != []
    ensures var raw := Journal.RollEach(ls, maxBytes);
            Journal.LastEntrySlice(raw).Some?
            && var (offset, length) := Journal.LastEntrySlice(raw).value;
               WorkspaceRead(Some(raw), Some(offset), Some(length), decode) == Text(decode(ls[|ls| - 1]))
  {
    hide Journal.RollEach, Journal.LastEntrySlice, Journal.AreLines;
    var raw := Journal.RollEach(ls, maxBytes);
    Journal.LastAppendIsAddressed(ls, maxBytes);
    var (offset, length) := Journal.LastEntrySlice(raw).value;
    SpanIsReadBack(raw, Span(offset, length), decode);
  }
}
