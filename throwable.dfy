/** The three natives of java_lang_Throwable: fillInStackTrace strips the leading
    frames of the captured trace in place and stores the rest as the throwable's
    backtrace; getStackTraceDepth and getStackTraceElement read that backtrace. */
module ThrowableNatives {
  import opened Outcomes
  import opened StackTrace

  /** fillInStackTrace's loop: remove the first frame while it is a fill-in frame or a
      throwable constructor frame. */
  method TrimStackTrace(captured: seq<StackFrame>, isThrowableClass: string -> bool) returns (stacktrace: seq<StackFrame>)
    ensures stacktrace == Trimmed(captured, isThrowableClass)
    // a suffix of the captured frames, and nothing but matching frames removed
    ensures stacktrace == captured[|captured| - |stacktrace|..]
    ensures forall i :: 0 <= i < |captured| - |stacktrace| ==> IsTrimmable(captured[i], isThrowableClass)
    ensures stacktrace != [] ==> !IsTrimmable(stacktrace[0], isThrowableClass)
  {
    stacktrace := captured;
    ghost var removed := 0;
    while stacktrace != []
      invariant removed <= TrimmedCount(captured, isThrowableClass)
      invariant stacktrace == captured[removed..]
      decreases |stacktrace|
    {
      var holder := stacktrace[0];
      if IsFillInStackTraceFrame(holder) {
        stacktrace := stacktrace[1..];
        removed := removed + 1;
        continue;
      }
      if IsThrowableConstructorFrame(holder, isThrowableClass) {
        stacktrace := stacktrace[1..];
        removed := removed + 1;
        continue;
      }
      break;
    }
    TrimmedCountIsFirstMismatch(captured, isThrowableClass, removed);
  }

  /** The inner loop of the collection: append the line-number nodes of one method,
      from its first node while the node has a successor. */
  method AppendMethodLines(lines: seq<LineEntry>, instructions: seq<Insn>) returns (extended: seq<LineEntry>)
    ensures extended == lines + LineEntries(ScannedNodes(instructions))
  {
    extended := lines;
    if instructions == [] {
      return;
    }
    var i := 0;
    while i + 1 < |instructions|
      invariant 0 <= i < |instructions|
      invariant extended == lines + LineEntries(instructions[..i])
    {
      if instructions[i].LineNumber? {
        extended := extended + [LineEntry(instructions[i].line, instructions[i].start)];
      }
      LineEntriesStep(instructions, i);
      i := i + 1;
    }
    assert instructions[..i] == ScannedNodes(instructions);
  }

  /** The nested loops of getStackTraceElement that gather the line-number nodes of
      every method of the frame's class. */
  method CollectLineEntries(owner: ClassNode) returns (lines: seq<LineEntry>)
    ensures lines == LineTable(owner.methods)
  {
    lines := [];
    var k := 0;
    while k < |owner.methods|
      invariant 0 <= k <= |owner.methods|
      invariant lines == LineTable(owner.methods[..k])
    {
      lines := AppendMethodLines(lines, owner.methods[k].instructions);
      assert owner.methods[..k + 1][..k] == owner.methods[..k];
      k := k + 1;
    }
    assert owner.methods[..k] == owner.methods;
  }

  /** The inner loop of getStackTraceElement: the first collected entry whose start
      is the given label. */
  method FindLabelLine(lines: seq<LineEntry>, labelId: nat) returns (line: Option<int>)
    ensures line == FirstLineFor(lines, labelId)
  {
    var k := 0;
    while k < |lines|
      invariant 0 <= k <= |lines|
      invariant forall k' :: 0 <= k' < k ==> lines[k'].start != labelId
    {
      if lines[k].start == labelId {
        FirstLineForAt(lines, labelId, k);
        return Some(lines[k].line);
      }
      k := k + 1;
    }
    FirstLineForNone(lines, labelId);
    return None;
  }

  /** The backward walk of getStackTraceElement from the node before target; the
      first label that starts a collected line ends both loops. */
  method FindLineNumber(target: Position, lines: seq<LineEntry>) returns (lineNumber: int)
    ensures lineNumber == match NearestLine(target.list[..target.index], lines)
                          case None => UnknownLine
                          case Some(line) => line
  {
    lineNumber := UnknownLine;
    var i: int := target.index - 1;
    while i >= 0
      invariant -1 <= i < target.index
      invariant NearestLine(target.list[..target.index], lines) == NearestLine(target.list[..i + 1], lines)
      invariant lineNumber == UnknownLine
    {
      var node := target.list[i];
      NearestLineStep(target.list, i, lines);
      if node.Label? {
        var found := FindLabelLine(lines, node.id);
        if found.Some? {
          lineNumber := found.value;
          break;
        }
      }
      i := i - 1;
    }
  }

  /** The line number getStackTraceElement computes for a frame. */
  method ComputeLineNumber(elem: StackFrame) returns (lineNumber: int)
    ensures lineNumber == LineNumberOf(elem)
  {
    lineNumber := UnknownLine;
    if elem.methodNode.isNative {
      lineNumber := NativeLine;
    } else if elem.instruction.Some? {
      var lines := CollectLineEntries(elem.owner);
      lineNumber := FindLineNumber(elem.instruction.value, lines);
    }
  }

  /** A java/lang/Throwable instance with its "backtrace" metadata, absent until
      fillInStackTrace has run. */
  class ThrowableObject {
    var backtrace: Option<seq<StackFrame>>

    constructor ()
      ensures backtrace == None
    {
      backtrace := None;
    }

    /** fillInStackTrace: store the trimmed capture and return the same instance. */
    method FillInStackTrace(captured: seq<StackFrame>, isThrowableClass: string -> bool) returns (inst: ThrowableObject)
      modifies this
      ensures inst == this
      ensures backtrace == Some(Trimmed(captured, isThrowableClass))
    {
      var stacktrace := TrimStackTrace(captured, isThrowableClass);
      backtrace := Some(stacktrace);
      inst := this;
    }

    /** getStackTraceDepth: the number of stored frames. */
    method GetStackTraceDepth() returns (depth: Outcome<int>)
      ensures backtrace.None? ==> depth == Fault(NullDereference)
      ensures backtrace.Some? ==> depth == Ok(|backtrace.value|)
    {
      if backtrace.None? {
        return Fault(NullDereference);
      }
      depth := Ok(|backtrace.value|);
    }

    /** getStackTraceElement: the element for the stored frame at index. */
    method GetStackTraceElement(index: int) returns (element: Outcome<StackTraceElement>)
      ensures backtrace.None? ==> element == Fault(NullDereference)
      ensures backtrace.Some? && !(0 <= index < |backtrace.value|) ==> element == Fault(IndexOutOfBounds)
      ensures backtrace.Some? && 0 <= index < |backtrace.value| ==> element == Ok(ElementOf(backtrace.value[index]))
    {
      if backtrace.None? {
        return Fault(NullDereference);
      }
      var queue := backtrace.value;
      if !(0 <= index < |queue|) {
        return Fault(IndexOutOfBounds);
      }
      var elem := queue[index];
      var lineNumber := ComputeLineNumber(elem);
      element := Ok(StackTraceElement(ExternalClassName(elem.owner.name), elem.methodNode.name, lineNumber));
    }
  }

  /** After fillInStackTrace the depth is the number of frames left by trimming. */
  method DepthAfterFill(captured: seq<StackFrame>, isThrowableClass: string -> bool) returns (depth: Outcome<int>)
    ensures depth == Ok(|captured| - TrimmedCount(captured, isThrowableClass))
  {
    var t := new ThrowableObject();
    var inst := t.FillInStackTrace(captured, isThrowableClass);
    depth := inst.GetStackTraceDepth();
  }
}
