/** What the Java platform hands to the state-machine layer: class tokens,
    reflective method handles, aggregate objects, `String.toLowerCase`, and
    the exceptions the layer raises. */
module Runtime {

  /** A `Class<?>` token, given by its binary name (`Class.getName()`, e.g.
      `p.A$Inner`): two tokens are the same class exactly when their binary
      names agree, and that is the registry key. */
  datatype AggregateType = AggregateType(name: string)
  {
    /** `Class.getSimpleName()` of a top-level or member class (`Inner`). */
    function SimpleName(): string {
      LastSegment(name)
    }
  }

  predicate IsSeparator(c: char) {
    c == '.' || c == '$'
  }

  /** What follows the last `.` (package) or `$` (enclosing class) of a
      binary name: the longest suffix that holds no separator. */
  function LastSegment(s: string): (r: string)
    ensures |r| <= |s| && r == s[|s| - |r|..]
    ensures forall i :: 0 <= i < |r| ==> !IsSeparator(r[i])
    ensures |r| < |s| ==> IsSeparator(s[|s| - |r| - 1])
  {
    if s == [] || IsSeparator(s[|s| - 1]) then [] else LastSegment(s[..|s| - 1]) + [s[|s| - 1]]
  }

  /** A `java.lang.reflect.Method`, reduced to what the layer asks of it:
      its name, and whether it is an `Object` method by signature (`equals`,
      `hashCode`, `toString`, ..., also when the aggregate overrides it). */
  datatype JavaMethod = JavaMethod(name: string, isObjectMethod: bool)

  /** An aggregate instance. Object identity is reference identity; its
      runtime class never changes. */
  class Aggregate {
    const runtimeType: AggregateType

    constructor (runtimeType: AggregateType)
      ensures this.runtimeType == runtimeType
    {
      this.runtimeType := runtimeType;
    }
  }

  /** The exceptions the layer lets escape to its caller. */
  datatype StateMachineError =
    | NotConfigured(aggregateType: AggregateType)             // IllegalArgumentException from getStateMachineFor
    | MissingIdentifier(aggregateType: AggregateType)         // getRequiredIdentifier on an aggregate without id
    | ProcessStartFailure(processKey: string, businessKey: string)
    | TransitionDeliveryFailure(messageName: string, businessKey: string)

  /** A binary name made of a qualifier ending in a separator (or of no
      qualifier) and a separator-free segment has that segment as its simple
      name, whatever the qualifier says. */
  lemma {:induction false} LastSegmentOf(qualifier: string, segment: string)
    requires qualifier == [] || IsSeparator(qualifier[|qualifier| - 1])
    requires forall i :: 0 <= i < |segment| ==> !IsSeparator(segment[i])
    ensures LastSegment(qualifier + segment) == segment
  {
    if segment == [] {
      assert qualifier + segment == qualifier;
    } else {
      var s := qualifier + segment;
      assert s[..|s| - 1] == qualifier + segment[..|segment| - 1];
      LastSegmentOf(qualifier, segment[..|segment| - 1]);
    }
  }

  predicate IsUpper(c: char) {
    'A' <= c <= 'Z'
  }

  /** One character's step of `String.toLowerCase`, on the ASCII letters;
      every other character is kept. */
  function LowerChar(c: char): (r: char)
    ensures !IsUpper(r)
    ensures IsUpper(c) ==> r as int == c as int + 32
    ensures !IsUpper(c) ==> r == c
  {
    if IsUpper(c) then (c as int + 32) as char else c
  }

  /** `String.toLowerCase`: lower-cases each character in place, keeping the length. */
  function ToLowerCase(s: string): (r: string)
    ensures |r| == |s|
    ensures forall i :: 0 <= i < |s| ==> r[i] == LowerChar(s[i])
  {
    if s == [] then [] else [LowerChar(s[0])] + ToLowerCase(s[1..])
  }

  /** Lower-casing twice is lower-casing once. */
  lemma LowerCaseIdempotent(s: string)
    ensures ToLowerCase(ToLowerCase(s)) == ToLowerCase(s)
  {
  }
}
