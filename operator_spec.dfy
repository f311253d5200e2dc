/**
 * The operator specification node of samza-core: an immutable
 * `(opCode, opId)` identity, the insertion-ordered, duplicate-free set of
 * downstream specs, its derived name, the clone-equivalence test, and the
 * search of the creation stack trace for the user's source location.
 */
module OperatorSpecs {
  import opened Common

  /** `OperatorSpec.OpCode`. */
  datatype OpCode =
    | INPUT | MAP | FLAT_MAP | FILTER | SINK | SEND_TO | JOIN | WINDOW | MERGE | PARTITION_BY | OUTPUT

  /** `OpCode.name()`: the enum constant's name. */
  function OpCodeName(c: OpCode): string
  {
    match c
    case INPUT => "INPUT"
    case MAP => "MAP"
    case FLAT_MAP => "FLAT_MAP"
    case FILTER => "FILTER"
    case SINK => "SINK"
    case SEND_TO => "SEND_TO"
    case JOIN => "JOIN"
    case WINDOW => "WINDOW"
    case MERGE => "MERGE"
    case PARTITION_BY => "PARTITION_BY"
    case OUTPUT => "OUTPUT"
  }

  /** `String.toLowerCase()` on one character of an enum name (ASCII only). */
  function ToLowerChar(c: char): char
  {
    if 'A' <= c <= 'Z' then ((c as int) + 32) as char else c
  }

  function ToLowerAscii(s: string): (r: string)
    ensures |r| == |s|
    ensures forall i :: 0 <= i < |s| ==> r[i] == ToLowerChar(s[i])
  {
    if s == [] then [] else [ToLowerChar(s[0])] + ToLowerAscii(s[1..])
  }

  /**
   * A Java class below `OperatorSpec`, given by its chain of superclasses
   * from the first class under `OperatorSpec` down to the class itself.
   */
  datatype SpecClass = SpecClass(chain: seq<string>)
  {
    /** `Class.isAssignableFrom` for single inheritance: `other` is this class or below it. */
    predicate IsAssignableFrom(other: SpecClass)
    {
      chain <= other.chain
    }
  }

  /** The test `isClone` applies, on the three parts it compares. */
  predicate CloneOf(thisClass: SpecClass, thisCode: OpCode, thisId: int,
                    otherClass: SpecClass, otherCode: OpCode, otherId: int)
  {
    thisClass.IsAssignableFrom(otherClass) && thisCode == otherCode && thisId == otherId
  }

  /** One `StackTraceElement`; the file name is `null` when it is unknown. */
  datatype StackFrame = StackFrame(className: string, fileName: Option<string>, lineNumber: int)

  const MessageStreamImplClass: string := "org.apache.samza.operators.MessageStreamImpl"
  const MessageStreamClass: string := "org.apache.samza.operators.MessageStream"

  /** A frame that the operator-building code itself did not produce. */
  predicate IsUserFrame(f: StackFrame)
  {
    f.className != MessageStreamImplClass && f.className != MessageStreamClass
  }

  /** `String.format("%s:%s", fileName, lineNumber)`. */
  function FormatFrame(f: StackFrame): string
  {
    FormatArg(f.fileName) + ":" + IntToDecimal(f.lineNumber)
  }

  class OperatorSpec {
    const opCode: OpCode
    const opId: int
    /** The runtime class of this spec, as `getClass()` reports it. */
    const specClass: SpecClass
    /** `Thread.currentThread().getStackTrace()` captured at construction. */
    const creationStackTrace: seq<StackFrame>

    /**
     * The `LinkedHashSet` of downstream specs, in first-registration order.
     * Java's set compares specs by identity, as Dafny compares references.
     */
    var nextOperatorSpecs: seq<OperatorSpec>

    ghost predicate Valid()
      reads this
    {
      NoDuplicates(nextOperatorSpecs)
    }

    constructor (opCode: OpCode, opId: int, specClass: SpecClass, creationStackTrace: seq<StackFrame>)
      ensures Valid()
      ensures this.opCode == opCode && this.opId == opId
      ensures this.specClass == specClass && this.creationStackTrace == creationStackTrace
      ensures nextOperatorSpecs == []
    {
      this.opCode := opCode;
      this.opId := opId;
      this.specClass := specClass;
      this.creationStackTrace := creationStackTrace;
      this.nextOperatorSpecs := [];
    }

    /**
     * `registerNextOperatorSpec`: adding a spec already in the set leaves
     * the set as it was; a new spec goes at the end.
     */
    method RegisterNextOperatorSpec(nextOperator: OperatorSpec)
      requires Valid()
      modifies this
      ensures Valid()
      ensures nextOperator in old(nextOperatorSpecs) ==> nextOperatorSpecs == old(nextOperatorSpecs)
      ensures nextOperator !in old(nextOperatorSpecs) ==> nextOperatorSpecs == old(nextOperatorSpecs) + [nextOperator]
    {
      if nextOperator !in nextOperatorSpecs {
        nextOperatorSpecs := nextOperatorSpecs + [nextOperator];
      }
    }

    /** `getRegisteredOperatorSpecs`: the downstream specs in registration order. */
    function GetRegisteredOperatorSpecs(): (r: seq<OperatorSpec>)
      requires Valid()
      reads this
      ensures NoDuplicates(r)
      ensures r == nextOperatorSpecs
    {
      nextOperatorSpecs
    }

    /** `getOpCode`: the opcode the spec was built with. */
    function GetOpCode(): (c: OpCode)
      ensures c == opCode
    {
      opCode
    }

    /** `getOpId`: the id the spec was built with. */
    function GetOpId(): (id: int)
      ensures id == opId
    {
      opId
    }

    /**
     * `getOpName`: the lower-cased opcode name, a dash, and the id in
     * decimal. The first dash of the name is the one after the opcode, so
     * each part can be read back.
     */
    function GetOpName(): (name: string)
      ensures |name| > |OpCodeName(opCode)|
      ensures name[..|OpCodeName(opCode)|] == ToLowerAscii(OpCodeName(opCode))
      ensures name[|OpCodeName(opCode)|] == '-' && '-' !in name[..|OpCodeName(opCode)|]
      ensures name[|OpCodeName(opCode)| + 1..] == IntToDecimal(opId)
    {
      LowerNameHasNoDash(opCode);
      ToLowerAscii(OpCodeName(GetOpCode())) + "-" + IntToDecimal(GetOpId())
    }

    /**
     * `isClone`: this spec's class is assignable from other's, with equal
     * opcode and id; a clone therefore has the same name.
     */
    predicate IsClone(other: OperatorSpec)
      ensures IsClone(other) <==>
        specClass.chain <= other.specClass.chain && GetOpCode() == other.GetOpCode() && GetOpId() == other.GetOpId()
      ensures IsClone(other) ==> GetOpName() == other.GetOpName()
    {
      CloneOf(specClass, opCode, opId, other.specClass, other.opCode, other.opId)
    }

    /**
     * `getSourceLocation`: the first frame from index 5 on that is not in
     * `MessageStreamImpl` or `MessageStream`, or frame 5 when every frame
     * from there on is, formatted as "file:line". A trace of five frames or
     * fewer has no frame 5, and reading it throws.
     */
    method GetSourceLocation() returns (location: Result<string>)
      ensures |creationStackTrace| <= 5 ==> location == Err(IndexOutOfBoundsException("5"))
      ensures |creationStackTrace| > 5 && (exists k :: 5 <= k < |creationStackTrace| && IsUserFrame(creationStackTrace[k])) ==>
                exists k :: 5 <= k < |creationStackTrace| && IsUserFrame(creationStackTrace[k])
                         && (forall j :: 5 <= j < k ==> !IsUserFrame(creationStackTrace[j]))
                         && location == Ok(FormatFrame(creationStackTrace[k]))
      ensures |creationStackTrace| > 5 && (forall k :: 5 <= k < |creationStackTrace| ==> !IsUserFrame(creationStackTrace[k])) ==>
                location == Ok(FormatFrame(creationStackTrace[5]))
    {
      if |creationStackTrace| <= 5 {
        return Err(IndexOutOfBoundsException("5"));
      }
      var element := creationStackTrace[5];
      var i := 5;
      while i < |creationStackTrace|
        invariant 5 <= i <= |creationStackTrace|
        invariant forall j :: 5 <= j < i ==> !IsUserFrame(creationStackTrace[j])
        invariant element == creationStackTrace[5]
      {
        if IsUserFrame(creationStackTrace[i]) {
          element := creationStackTrace[i];
          break;
        }
        i := i + 1;
      }
      location := Ok(FormatFrame(element));
    }
  }

  // -----------------------------------------------------------------------
  // Properties.

  /**
   * A client: a new spec keeps the opcode and id it was built with, and
   * the name made of them, however many downstream specs it registers.
   */
  method IdentityIsFixed(opCode: OpCode, opId: int, specClass: SpecClass, trace: seq<StackFrame>,
                         x: OperatorSpec, y: OperatorSpec)
    returns (s: OperatorSpec)
    ensures s.GetOpCode() == opCode && s.GetOpId() == opId
    ensures s.GetOpName() == ToLowerAscii(OpCodeName(opCode)) + "-" + IntToDecimal(opId)
    ensures s.Valid() && s.GetRegisteredOperatorSpecs() == if x == y then [x] else [x, y]
  {
    s := new OperatorSpec(opCode, opId, specClass, trace);
    s.RegisterNextOperatorSpec(x);
    s.RegisterNextOperatorSpec(y);
  }

  /** Every spec is a clone of itself. */
  lemma IsCloneReflexive(s: OperatorSpec)
    ensures s.IsClone(s)
  {
  }

  /**
   * `isClone` is not symmetric: a spec of a superclass accepts a spec of a
   * subclass with the same opcode and id, but not the other way round.
   */
  lemma IsCloneNotSymmetric()
    ensures exists c, d: SpecClass :: CloneOf(c, MAP, 1, d, MAP, 1) && !CloneOf(d, MAP, 1, c, MAP, 1)
  {
    var c := SpecClass(["StreamOperatorSpec"]);
    var d := SpecClass(["StreamOperatorSpec", "MapOperatorSpec"]);
    assert d.chain[..1] == c.chain;
    assert !(d.chain <= c.chain);
    assert CloneOf(c, MAP, 1, d, MAP, 1) && !CloneOf(d, MAP, 1, c, MAP, 1);
  }

  /** Two specs that are clones of each other both ways are of the same class. */
  lemma MutualClonesShareClass(a: OperatorSpec, b: OperatorSpec)
    requires a.IsClone(b) && b.IsClone(a)
    ensures a.specClass == b.specClass && a.opCode == b.opCode && a.opId == b.opId
  {
    assert |a.specClass.chain| == |b.specClass.chain|;
    assert a.specClass.chain == b.specClass.chain;
  }

  /** `isClone` is transitive. */
  lemma IsCloneTransitive(a: OperatorSpec, b: OperatorSpec, c: OperatorSpec)
    requires a.IsClone(b) && b.IsClone(c)
    ensures a.IsClone(c)
  {
    assert a.specClass.chain == b.specClass.chain[..|a.specClass.chain|];
    assert b.specClass.chain == c.specClass.chain[..|b.specClass.chain|];
    assert a.specClass.chain == c.specClass.chain[..|a.specClass.chain|];
  }

  /** Lower-cased opcode names never contain a dash. */
  lemma LowerNameHasNoDash(c: OpCode)
    ensures '-' !in ToLowerAscii(OpCodeName(c))
  {
    LowerCaseKeepsNoDash(OpCodeName(c));
  }

  /** Lower-casing adds no dash. */
  lemma LowerCaseKeepsNoDash(n: string)
    requires '-' !in n
    ensures '-' !in ToLowerAscii(n)
  {
    var l := ToLowerAscii(n);
    forall i | 0 <= i < |l| ensures l[i] != '-' {
      assert l[i] == ToLowerChar(n[i]);
    }
  }

  /** Different opcodes have different lower-cased names. */
  lemma LowerNameInjective(c: OpCode, d: OpCode)
    requires ToLowerAscii(OpCodeName(c)) == ToLowerAscii(OpCodeName(d))
    ensures c == d
  {
    var lc, ld := ToLowerAscii(OpCodeName(c)), ToLowerAscii(OpCodeName(d));
    assert |OpCodeName(c)| == |OpCodeName(d)|;
    assert lc[0] == ToLowerChar(OpCodeName(c)[0]) && ld[0] == ToLowerChar(OpCodeName(d)[0]);
    assert OpCodeName(c)[0] == OpCodeName(d)[0];
    if |OpCodeName(c)| > 1 {
      assert lc[1] == ToLowerChar(OpCodeName(c)[1]) && ld[1] == ToLowerChar(OpCodeName(d)[1]);
      assert OpCodeName(c)[1] == OpCodeName(d)[1];
    }
  }

  /** Splitting at the first dash: a dash-free prefix and the rest are recovered. */
  lemma SplitAtFirstDash(a: string, x: string, b: string, y: string)
    requires '-' !in a && '-' !in b
    requires a + "-" + x == b + "-" + y
    ensures a == b && x == y
  {
    var s := a + "-" + x;
    assert s[|a|] == '-' && forall i :: 0 <= i < |a| ==> s[i] == a[i];
    assert s[|b|] == '-' && forall i :: 0 <= i < |b| ==> s[i] == b[i];
    assert |a| == |b|;
    assert a == s[..|a|] == b;
    assert x == s[|a| + 1..] == y;
  }

  /** An operator's name determines its opcode and its id. */
  lemma OpNameIdentifiesOperator(s: OperatorSpec, t: OperatorSpec)
    requires s.GetOpName() == t.GetOpName()
    ensures s.opCode == t.opCode && s.opId == t.opId
  {
    LowerNameHasNoDash(s.opCode);
    LowerNameHasNoDash(t.opCode);
    SplitAtFirstDash(ToLowerAscii(OpCodeName(s.opCode)), IntToDecimal(s.opId),
                     ToLowerAscii(OpCodeName(t.opCode)), IntToDecimal(t.opId));
    LowerNameInjective(s.opCode, t.opCode);
    IntToDecimalInjective(s.opId, t.opId);
  }

  /** A client: registering a spec twice keeps one copy, after the earlier ones. */
  method RegisterTwiceKeepsOrder(a: OperatorSpec, x: OperatorSpec, y: OperatorSpec)
    requires a.Valid() && a.nextOperatorSpecs == [] && x != y
    modifies a
    ensures a.Valid() && a.GetRegisteredOperatorSpecs() == [x, y]
  {
    a.RegisterNextOperatorSpec(x);
    a.RegisterNextOperatorSpec(y);
    a.RegisterNextOperatorSpec(x);
  }
}
