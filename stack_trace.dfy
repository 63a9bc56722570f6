/** Captured call frames of an emulated throwable: which leading frames the capture
    strips, and how a frame's source line is recovered from the line-number entries
    of its class (the LineNumberTable of section 4.7.12 of the Java Virtual Machine
    Specification, as the bytecode library presents it: a label node marks a position
    and a line-number node names the label where its line starts). */
module StackTrace {
  import opened Outcomes

  /** One node of a method's instruction list. */
  datatype Insn = Label(id: nat) | LineNumber(line: int, start: nat) | Other

  /** A method of a loaded class: its name, whether it is native, its instruction list
      (empty when the method has no code). */
  datatype MethodNode = MethodNode(name: string, isNative: bool, instructions: seq<Insn>)

  /** A loaded class: its internal name (with '/') and its methods in declaration order. */
  datatype ClassNode = ClassNode(name: string, methods: seq<MethodNode>)

  /** An instruction node: the list it belongs to and its index in that list. */
  datatype InsnPos = InsnPos(list: seq<Insn>, index: nat)
  type Position = p: InsnPos | p.index < |p.list| witness InsnPos([Other], 0)

  /** One captured frame: its class, its method and the active instruction, if any. */
  datatype StackFrame = StackFrame(owner: ClassNode, methodNode: MethodNode, instruction: Option<Position>)

  /** The three fields of a java.lang.StackTraceElement the native computes. */
  datatype StackTraceElement = StackTraceElement(declaringClass: string, methodName: string, lineNumber: int)

  /** A collected line-number node: its line and the label where the line starts. */
  datatype LineEntry = LineEntry(line: int, start: nat)

  const NativeLine: int := -2
  const UnknownLine: int := -1

  const FillInStackTraceName: string := "fillInStackTrace"
  const FillInStackTrace0Name: string := "fillInStackTrace0"
  const ConstructorName: string := "<init>"

  // ---------------------------------------------------------------------------
  // Trimming the captured frames

  /** The case folding of String.equalsIgnoreCase for a comparison with an ASCII
      character: ASCII letters, and the four non-ASCII characters whose upper or
      lower case is an ASCII letter (dotted and dotless i, long s, Kelvin sign). */
  function FoldCase(c: char): (f: char)
    ensures 'A' <= c <= 'Z' ==> f as int == c as int + 32
    ensures 'a' <= c <= 'z' ==> f == c
  {
    if 'A' <= c <= 'Z' then (c as int + 32) as char
    else if c == '\U{0130}' || c == '\U{0131}' then 'i'
    else if c == '\U{017F}' then 's'
    else if c == '\U{212A}' then 'k'
    else c
  }

  /** String.equalsIgnoreCase, exact when t is ASCII (as every name compared here is). */
  predicate EqualsIgnoreCase(s: string, t: string) {
    |s| == |t| && forall i :: 0 <= i < |s| ==> FoldCase(s[i]) == FoldCase(t[i])
  }

  /** A frame of fillInStackTrace or fillInStackTrace0, in any case. */
  predicate IsFillInStackTraceFrame(f: StackFrame) {
    EqualsIgnoreCase(f.methodNode.name, FillInStackTrace0Name) || EqualsIgnoreCase(f.methodNode.name, FillInStackTraceName)
  }

  /** A constructor frame of a class assignable to java/lang/Throwable; the class
      hierarchy is consulted by name through isThrowableClass. */
  predicate IsThrowableConstructorFrame(f: StackFrame, isThrowableClass: string -> bool) {
    f.methodNode.name == ConstructorName && isThrowableClass(f.owner.name)
  }

  predicate IsTrimmable(f: StackFrame, isThrowableClass: string -> bool) {
    IsFillInStackTraceFrame(f) || IsThrowableConstructorFrame(f, isThrowableClass)
  }

  /** How many leading frames the capture strips. */
  function TrimmedCount(trace: seq<StackFrame>, isThrowableClass: string -> bool): (k: nat)
    ensures k <= |trace|
    // every stripped frame matches one of the two rules ...
    ensures forall i :: 0 <= i < k ==> IsTrimmable(trace[i], isThrowableClass)
    // ... and stripping stops at the first frame that matches neither
    ensures k < |trace| ==> !IsTrimmable(trace[k], isThrowableClass)
  {
    if |trace| > 0 && IsTrimmable(trace[0], isThrowableClass) then 1 + TrimmedCount(trace[1..], isThrowableClass) else 0
  }

  /** The frames the capture stores: a suffix of the captured ones, in their order. */
  function Trimmed(trace: seq<StackFrame>, isThrowableClass: string -> bool): seq<StackFrame> {
    trace[TrimmedCount(trace, isThrowableClass)..]
  }

  /** Stripping is determined by the two rules alone: any cut whose prefix matches and
      whose next frame does not is the one taken. */
  lemma TrimmedCountIsFirstMismatch(trace: seq<StackFrame>, isThrowableClass: string -> bool, k: nat)
    requires k <= |trace|
    requires forall i :: 0 <= i < k ==> IsTrimmable(trace[i], isThrowableClass)
    requires k < |trace| ==> !IsTrimmable(trace[k], isThrowableClass)
    ensures TrimmedCount(trace, isThrowableClass) == k
    ensures Trimmed(trace, isThrowableClass) == trace[k..]
  {
  }

  /** A capture made only of matching frames is stripped to nothing. */
  lemma TrimmedMayBeEmpty(trace: seq<StackFrame>, isThrowableClass: string -> bool)
    requires forall i :: 0 <= i < |trace| ==> IsTrimmable(trace[i], isThrowableClass)
    ensures Trimmed(trace, isThrowableClass) == []
  {
  }

  /** An exception built inside a throwable constructor that calls fillInStackTrace
      loses both frames; the stored trace starts at the first caller outside. */
  lemma {:induction false} TrimmedSkipsThrowableConstruction(fill: StackFrame, ctor: StackFrame, rest: seq<StackFrame>,
                                                             isThrowableClass: string -> bool)
    requires IsFillInStackTraceFrame(fill)
    requires IsThrowableConstructorFrame(ctor, isThrowableClass)
    ensures Trimmed([fill, ctor] + rest, isThrowableClass) == Trimmed(rest, isThrowableClass)
  {
    var trace := [fill, ctor] + rest;
    assert trace[1..] == [ctor] + rest;
    assert trace[1..][1..] == rest;
    calc {
      TrimmedCount(trace, isThrowableClass);
      1 + TrimmedCount([ctor] + rest, isThrowableClass);
      2 + TrimmedCount(rest, isThrowableClass);
    }
    assert trace[2..] == rest;
  }

  /** The fill-in rule ignores case, as equalsIgnoreCase does. */
  lemma FillInRuleIgnoresCase(owner: ClassNode, code: seq<Insn>)
    ensures IsFillInStackTraceFrame(StackFrame(owner, MethodNode("FILLINSTACKTRACE", false, code), None))
  {
  }

  /** Even the dotless i folds to an ASCII i. */
  lemma FillInRuleFoldsDotlessI(owner: ClassNode, code: seq<Insn>)
    ensures IsFillInStackTraceFrame(StackFrame(owner, MethodNode("f\U{0131}llInStackTrace0", true, code), None))
  {
  }

  /** The constructor rule compares the name exactly. */
  lemma ConstructorRuleIsCaseSensitive(owner: ClassNode, code: seq<Insn>, isThrowableClass: string -> bool)
    requires isThrowableClass(owner.name)
    ensures !IsTrimmable(StackFrame(owner, MethodNode("<INIT>", false, code), None), isThrowableClass)
    ensures IsTrimmable(StackFrame(owner, MethodNode("<init>", false, code), None), isThrowableClass)
  {
  }

  // ---------------------------------------------------------------------------
  // Collecting the class's line-number entries

  /** The entry a node contributes: a line-number node gives one, any other none. */
  function EntryOf(n: Insn): seq<LineEntry> {
    if n.LineNumber? then [LineEntry(n.line, n.start)] else []
  }

  /** The entries of a run of nodes, in list order. */
  function LineEntries(nodes: seq<Insn>): seq<LineEntry>
    decreases |nodes|
  {
    if nodes == [] then [] else LineEntries(nodes[..|nodes| - 1]) + EntryOf(nodes[|nodes| - 1])
  }

  /** The nodes the collecting loop visits: it stops when a node has no successor, so
      the last node of each list is never looked at. */
  function ScannedNodes(instructions: seq<Insn>): seq<Insn> {
    if instructions == [] then [] else instructions[..|instructions| - 1]
  }

  /** The entries collected from all methods of a class, method by method. */
  function LineTable(methods: seq<MethodNode>): seq<LineEntry>
    decreases |methods|
  {
    if methods == [] then []
    else LineTable(methods[..|methods| - 1]) + LineEntries(ScannedNodes(methods[|methods| - 1].instructions))
  }

  lemma {:induction false} LineEntriesMembership(nodes: seq<Insn>, e: LineEntry)
    ensures e in LineEntries(nodes) <==> exists j :: 0 <= j < |nodes| && nodes[j] == LineNumber(e.line, e.start)
    decreases |nodes|
  {
    if nodes != [] {
      var init := nodes[..|nodes| - 1];
      LineEntriesMembership(init, e);
      if e in LineEntries(init) {
        var j :| 0 <= j < |init| && init[j] == LineNumber(e.line, e.start);
        assert nodes[j] == init[j];
      }
      if j :| 0 <= j < |nodes| && nodes[j] == LineNumber(e.line, e.start) {
        if j < |init| {
          assert init[j] == nodes[j];
        }
      }
    }
  }

  /** One more node extends the entries of a prefix by that node's entry. */
  lemma LineEntriesStep(nodes: seq<Insn>, i: nat)
    requires i < |nodes|
    ensures LineEntries(nodes[..i + 1]) == LineEntries(nodes[..i]) + EntryOf(nodes[i])
  {
    assert nodes[..i + 1][..i] == nodes[..i];
  }

  /** A method holds a line-number node for e at a position the collecting loop
      visits, that is, at any position but its last. */
  predicate HasLineNode(m: MethodNode, e: LineEntry) {
    exists j :: 0 <= j < |m.instructions| - 1 && m.instructions[j] == LineNumber(e.line, e.start)
  }

  lemma ScannedMembership(m: MethodNode, e: LineEntry)
    ensures e in LineEntries(ScannedNodes(m.instructions)) <==> HasLineNode(m, e)
  {
    var scanned := ScannedNodes(m.instructions);
    LineEntriesMembership(scanned, e);
    assert forall j :: 0 <= j < |scanned| ==> scanned[j] == m.instructions[j];
  }

  /** An entry is collected exactly when some method of the class has that
      line-number node at a position other than its last. */
  lemma {:induction false} LineTableMembership(methods: seq<MethodNode>, e: LineEntry)
    ensures e in LineTable(methods) <==> exists k :: 0 <= k < |methods| && HasLineNode(methods[k], e)
    decreases |methods|
  {
    if methods != [] {
      var n := |methods| - 1;
      var init := methods[..n];
      var last := LineEntries(ScannedNodes(methods[n].instructions));
      assert LineTable(methods) == LineTable(init) + last;
      LineTableMembership(init, e);
      ScannedMembership(methods[n], e);
      if e in LineTable(methods) {
        if e in LineTable(init) {
          var k :| 0 <= k < n && HasLineNode(init[k], e);
          assert init[k] == methods[k];
        } else {
          assert HasLineNode(methods[n], e);
        }
      } else {
        forall k | 0 <= k < |methods| ensures !HasLineNode(methods[k], e) {
          if k < n {
            assert init[k] == methods[k];
          }
        }
      }
    }
  }

  // ---------------------------------------------------------------------------
  // Recovering the line of a frame

  /** The line of the first collected entry that starts at the given label. */
  function FirstLineFor(lines: seq<LineEntry>, labelId: nat): Option<int> {
    if lines == [] then None
    else if lines[0].start == labelId then Some(lines[0].line)
    else FirstLineFor(lines[1..], labelId)
  }

  /** FirstLineFor is None exactly when no entry starts at the label. */
  lemma {:induction false} FirstLineForNone(lines: seq<LineEntry>, labelId: nat)
    ensures FirstLineFor(lines, labelId).None? <==> forall i :: 0 <= i < |lines| ==> lines[i].start != labelId
  {
    if lines != [] && lines[0].start != labelId {
      FirstLineForNone(lines[1..], labelId);
      assert forall i :: 1 <= i < |lines| ==> lines[i] == lines[1..][i - 1];
    }
  }

  /** Otherwise it is the line of the first entry that starts at the label. */
  lemma {:induction false} FirstLineForSome(lines: seq<LineEntry>, labelId: nat)
    ensures FirstLineFor(lines, labelId).Some? ==>
              exists i :: 0 <= i < |lines| && lines[i].start == labelId && lines[i].line == FirstLineFor(lines, labelId).value
                          && forall i' :: 0 <= i' < i ==> lines[i'].start != labelId
  {
    if lines != [] && lines[0].start != labelId {
      var tail := lines[1..];
      FirstLineForSome(tail, labelId);
      if FirstLineFor(tail, labelId).Some? {
        var i :| 0 <= i < |tail| && tail[i].start == labelId && tail[i].line == FirstLineFor(tail, labelId).value
                 && forall i' :: 0 <= i' < i ==> tail[i'].start != labelId;
        assert lines[i + 1] == tail[i];
        forall i' | 0 <= i' < i + 1 ensures lines[i'].start != labelId {
          if i' > 0 {
            assert lines[i'] == tail[i' - 1];
          }
        }
      }
    }
  }

  /** The first entry at position k starting at the label is the one FirstLineFor reports. */
  lemma {:induction false} FirstLineForAt(lines: seq<LineEntry>, labelId: nat, k: nat)
    requires k < |lines| && lines[k].start == labelId
    requires forall i :: 0 <= i < k ==> lines[i].start != labelId
    ensures FirstLineFor(lines, labelId) == Some(lines[k].line)
  {
    if k > 0 {
      assert lines[0].start != labelId;
      assert forall i :: 0 <= i < k - 1 ==> lines[1..][i] == lines[i + 1];
      FirstLineForAt(lines[1..], labelId, k - 1);
    }
  }

  /** A node that marks the start of a collected line. */
  predicate StartsLine(lines: seq<LineEntry>, n: Insn) {
    n.Label? && FirstLineFor(lines, n.id).Some?
  }

  /** The backward walk over the nodes before an instruction: the first label met
      (the nearest one) that starts a collected line gives the line. */
  function NearestLine(before: seq<Insn>, lines: seq<LineEntry>): Option<int>
    decreases |before|
  {
    if before == [] then None
    else
      var n := |before| - 1;
      if StartsLine(lines, before[n]) then FirstLineFor(lines, before[n].id) else NearestLine(before[..n], lines)
  }

  /** NearestLine is None exactly when no node before the instruction starts a line. */
  lemma {:induction false} NearestLineNone(before: seq<Insn>, lines: seq<LineEntry>)
    ensures NearestLine(before, lines).None? <==> forall j :: 0 <= j < |before| ==> !StartsLine(lines, before[j])
    decreases |before|
  {
    if before != [] {
      var n := |before| - 1;
      if !StartsLine(lines, before[n]) {
        var init := before[..n];
        NearestLineNone(init, lines);
        assert forall j :: 0 <= j < n ==> init[j] == before[j];
      }
    }
  }

  /** Otherwise it is the line of the last node before the instruction that starts one. */
  lemma {:induction false} NearestLineSome(before: seq<Insn>, lines: seq<LineEntry>)
    ensures NearestLine(before, lines).Some? ==>
              exists j :: 0 <= j < |before| && StartsLine(lines, before[j])
                          && NearestLine(before, lines) == FirstLineFor(lines, before[j].id)
                          && forall j' :: j < j' < |before| ==> !StartsLine(lines, before[j'])
    decreases |before|
  {
    if before != [] {
      var n := |before| - 1;
      if !StartsLine(lines, before[n]) {
        var init := before[..n];
        NearestLineSome(init, lines);
        if NearestLine(init, lines).Some? {
          var j :| 0 <= j < n && StartsLine(lines, init[j])
                   && NearestLine(init, lines) == FirstLineFor(lines, init[j].id)
                   && forall j' :: j < j' < n ==> !StartsLine(lines, init[j']);
          assert before[j] == init[j];
          forall j' | j < j' < |before| ensures !StartsLine(lines, before[j']) {
            if j' < n {
              assert before[j'] == init[j'];
            }
          }
        }
      }
    }
  }

  /** One step of the backward walk: the node at i decides, or the nodes before it do. */
  lemma NearestLineStep(list: seq<Insn>, i: nat, lines: seq<LineEntry>)
    requires i < |list|
    ensures NearestLine(list[..i + 1], lines) ==
            if StartsLine(lines, list[i]) then FirstLineFor(lines, list[i].id) else NearestLine(list[..i], lines)
  {
    var before := list[..i + 1];
    assert before[i] == list[i] && before[..i] == list[..i];
  }

  /** The line getStackTraceElement reports for a frame. */
  function LineNumberOf(f: StackFrame): (line: int)
    ensures f.methodNode.isNative ==> line == NativeLine
    ensures !f.methodNode.isNative && f.instruction.None? ==> line == UnknownLine
    // otherwise: the nearest label strictly before the instruction that starts a
    // collected line decides, and without one the line is unknown
    ensures !f.methodNode.isNative && f.instruction.Some? ==>
              var p := f.instruction.value;
              var table := LineTable(f.owner.methods);
              || (line == UnknownLine && forall j :: 0 <= j < p.index ==> !StartsLine(table, p.list[j]))
              || (exists j :: 0 <= j < p.index && StartsLine(table, p.list[j])
                              && Some(line) == FirstLineFor(table, p.list[j].id)
                              && forall j' :: j < j' < p.index ==> !StartsLine(table, p.list[j']))
  {
    if f.methodNode.isNative then NativeLine
    else if f.instruction.None? then UnknownLine
    else
      var p := f.instruction.value;
      var before := p.list[..p.index];
      assert forall j :: 0 <= j < p.index ==> before[j] == p.list[j];
      NearestLineNone(before, LineTable(f.owner.methods));
      NearestLineSome(before, LineTable(f.owner.methods));
      match NearestLine(before, LineTable(f.owner.methods))
      case None => UnknownLine
      case Some(line) => line
  }

  /** Class.getName form of an internal class name: every '/' becomes '.'. */
  function ExternalClassName(name: string): (r: string)
    ensures |r| == |name|
    ensures forall i :: 0 <= i < |name| ==> r[i] == (if name[i] == '/' then '.' else name[i])
    ensures '/' !in r
  {
    if name == [] then [] else [if name[0] == '/' then '.' else name[0]] + ExternalClassName(name[1..])
  }

  /** The element getStackTraceElement builds for a frame. */
  function ElementOf(f: StackFrame): (e: StackTraceElement)
    ensures e.methodName == f.methodNode.name && e.lineNumber == LineNumberOf(f)
    ensures e.declaringClass == ExternalClassName(f.owner.name)
  {
    StackTraceElement(ExternalClassName(f.owner.name), f.methodNode.name, LineNumberOf(f))
  }

  /** A method whose label 1 starts line 10 and whose label 2 starts line 12:
      Label(1), LineNumber(10, 1), Other, Label(2), LineNumber(12, 2), Other, Other. */
  predicate IsExampleCode(code: seq<Insn>) {
    && |code| == 7
    && code[0] == Label(1) && code[1] == LineNumber(10, 1) && code[2] == Other
    && code[3] == Label(2) && code[4] == LineNumber(12, 2) && code[5] == Other && code[6] == Other
  }

  /** The line-number nodes of the example's first six nodes, in order. */
  lemma ExampleEntries(code: seq<Insn>)
    requires IsExampleCode(code)
    ensures LineEntries(code[..6]) == [LineEntry(10, 1), LineEntry(12, 2)]
  {
    assert code[..0] == [];
    LineEntriesStep(code, 0);
    assert LineEntries(code[..1]) == [];
    LineEntriesStep(code, 1);
    assert LineEntries(code[..2]) == [LineEntry(10, 1)];
    LineEntriesStep(code, 2);
    LineEntriesStep(code, 3);
    assert LineEntries(code[..4]) == [LineEntry(10, 1)];
    LineEntriesStep(code, 4);
    assert LineEntries(code[..5]) == [LineEntry(10, 1), LineEntry(12, 2)];
    LineEntriesStep(code, 5);
  }

  lemma ExampleLineTable(code: seq<Insn>)
    requires IsExampleCode(code)
    ensures LineTable([MethodNode("m", false, code)]) == [LineEntry(10, 1), LineEntry(12, 2)]
  {
    var methods := [MethodNode("m", false, code)];
    assert methods[..0] == [];
    assert ScannedNodes(code) == code[..6];
    ExampleEntries(code);
  }

  lemma ExampleNearestLineAfterSecondLabel(code: seq<Insn>)
    requires IsExampleCode(code)
    ensures NearestLine(code[..5], [LineEntry(10, 1), LineEntry(12, 2)]) == Some(12)
  {
  }

  lemma ExampleNearestLineAfterFirstLabel(code: seq<Insn>)
    requires IsExampleCode(code)
    ensures NearestLine(code[..2], [LineEntry(10, 1), LineEntry(12, 2)]) == Some(10)
  {
  }

  /** An instruction after label 2 is on line 12, one between the labels on line 10,
      one before both on no line. */
  lemma LineMappingExample(owner: ClassNode, code: seq<Insn>)
    requires IsExampleCode(code) && owner.methods == [MethodNode("m", false, code)]
    ensures LineNumberOf(StackFrame(owner, owner.methods[0], Some(InsnPos(code, 5)))) == 12
    ensures LineNumberOf(StackFrame(owner, owner.methods[0], Some(InsnPos(code, 2)))) == 10
    ensures LineNumberOf(StackFrame(owner, owner.methods[0], Some(InsnPos(code, 0)))) == UnknownLine
  {
    ExampleLineTable(code);
    ExampleNearestLineAfterSecondLabel(code);
    ExampleNearestLineAfterFirstLabel(code);
    assert code[..0] == [];
  }

  /** The collecting loop never visits the last node of a method, so a line-number
      node in that place starts no line. */
  lemma LastNodeIsNotCollected(name: string)
    ensures var code := [Label(1), Other, LineNumber(7, 1)];
            LineNumberOf(StackFrame(ClassNode(name, [MethodNode("m", false, code)]), MethodNode("m", false, code),
                                    Some(InsnPos(code, 1)))) == UnknownLine
  {
    var code := [Label(1), Other, LineNumber(7, 1)];
    assert ScannedNodes(code) == code[..2];
    assert code[..0] == [];
    LineEntriesStep(code, 0);
    LineEntriesStep(code, 1);
    assert [MethodNode("m", false, code)][..0] == [];
    assert LineTable([MethodNode("m", false, code)]) == [];
  }
}
