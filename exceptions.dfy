/**
 * The package's two error kinds and the messages their constructors build.
 * The hint an error carries may be any object, so the module is generic in
 * its type `H`; the caller supplies the object standing for `None` and the
 * text `repr` gives for an object.
 */
module Exceptions {
  import opened Text

  /** The exception classes involved: the package's three and the built-ins they derive from. */
  datatype ExcClass =
    | ObjectClass
    | BaseExceptionClass
    | ExceptionClass
    | TypeErrorClass
    | AttributeErrorClass
    | SentinelErrorClass
    | InvalidHintErrorClass
    | SubscriptedTypeErrorClass

  /** Distance from `object` along the longest chain of bases; every base sits strictly lower. */
  function Depth(c: ExcClass): nat
  {
    match c
    case ObjectClass => 0
    case BaseExceptionClass => 1
    case ExceptionClass => 2
    case TypeErrorClass | AttributeErrorClass | SentinelErrorClass => 3
    case InvalidHintErrorClass | SubscriptedTypeErrorClass => 4
  }

  /** The bases each class is declared with, in declaration order. */
  function Bases(c: ExcClass): (bs: seq<ExcClass>)
    ensures forall i :: 0 <= i < |bs| ==> Depth(bs[i]) < Depth(c)
  {
    match c
    case ObjectClass => []
    case BaseExceptionClass => [ObjectClass]
    case ExceptionClass => [BaseExceptionClass]
    case TypeErrorClass | AttributeErrorClass => [ExceptionClass]
    case SentinelErrorClass => [ExceptionClass]
    case InvalidHintErrorClass => [SentinelErrorClass]
    case SubscriptedTypeErrorClass => [SentinelErrorClass, TypeErrorClass]
  }

  /** `c` and every class reachable from it through declared bases. */
  function Ancestors(c: ExcClass): set<ExcClass>
    decreases Depth(c) + 1, 0
  {
    {c} + AncestorsOf(Bases(c), Depth(c))
  }

  /** The ancestors of each class in `bs`, all of which sit below `bound`. */
  function AncestorsOf(bs: seq<ExcClass>, bound: nat): set<ExcClass>
    requires forall i :: 0 <= i < |bs| ==> Depth(bs[i]) < bound
    decreases bound, |bs|
  {
    if bs == [] then {} else Ancestors(bs[0]) + AncestorsOf(bs[1..], bound)
  }

  /** `issubclass(c, d)` */
  predicate IsSubclass(c: ExcClass, d: ExcClass)
  {
    d in Ancestors(c)
  }

  /** An error raised by the sentinel constructor. */
  datatype SentinelError<H> =
    | InvalidHintError(hint: H)
    | SubscriptedTypeError(hint: H, subscripted: H)

  /** The class an error is an instance of. */
  function ClassOf<H>(e: SentinelError<H>): ExcClass
  {
    match e
    case InvalidHintError(_) => InvalidHintErrorClass
    case SubscriptedTypeError(_, _) => SubscriptedTypeErrorClass
  }

  /**
   * Both kinds are `SentinelError`s (and so `Exception`s); only a
   * conflicting subscription is also a `TypeError`.
   */
  lemma ErrorHierarchy<H>(e: SentinelError<H>)
    ensures IsSubclass(ClassOf(e), SentinelErrorClass)
    ensures IsSubclass(ClassOf(e), ExceptionClass)
    ensures IsSubclass(ClassOf(e), TypeErrorClass) <==> e.SubscriptedTypeError?
    ensures !IsSubclass(ClassOf(e), AttributeErrorClass)
  {
  }

  // The longer texts are written in pieces only so that the verifier can
  // see, piece by piece, that they hold no newline.
  const NoneLine := "Argument for `hint` cannot be `None`"
  const SentinelLine := "Argument for `hint` cannot be " + "a `Sentinel` instance " + "or `Sentinel` itself"

  function ReceivedLine(hintRepr: string): string
  {
    "Received argument for hint: '" + hintRepr + "'"
  }

  const MatchHeader := "Subscripted type and explicit " + "argument for 'hint' must match"

  function SubscriptedLine(subscriptedRepr: string): string
  {
    "   Subscripted type: " + subscriptedRepr
  }

  function HintLine(hintRepr: string): string
  {
    "               Hint: " + hintRepr
  }

  /**
   * The message of `InvalidHintError(hint)`: it opens with the `None` line
   * exactly when the hint is `None`, and otherwise with the line about
   * sentinels; it always closes with the hint's `repr` in quotes.
   */
  function InvalidHintMessage<H(==)>(hint: H, none: H, repr: H -> string): (msg: string)
    ensures StartsWith(msg, NoneLine + "\n") <==> hint == none
    ensures hint != none ==> StartsWith(msg, SentinelLine + "\n")
    ensures EndsWith(msg, ReceivedLine(repr(hint)))
  {
    var first := if hint == none then NoneLine else SentinelLine;
    var msg := first + "\n" + ReceivedLine(repr(hint));
    assert msg[..|first| + 1] == first + "\n";
    assert hint != none ==> msg[30] == 'a' && (NoneLine + "\n")[30] == '`';
    msg
  }

  /** The message of `SubscriptedTypeError(hint, subscripted)`, three lines long. */
  function SubscriptedTypeMessage<H>(hint: H, subscripted: H, repr: H -> string): (msg: string)
    ensures StartsWith(msg, MatchHeader + "\n")
  {
    MatchHeader + "\n" + SubscriptedLine(repr(subscripted)) + "\n" + HintLine(repr(hint))
  }

  /** Read line by line, an invalid-hint message is the reason and then the received hint. */
  lemma InvalidHintLines<H>(hint: H, none: H, repr: H -> string)
    requires '\n' !in repr(hint)
    ensures Lines(InvalidHintMessage(hint, none, repr))
         == [if hint == none then NoneLine else SentinelLine, ReceivedLine(repr(hint))]
  {
    var ls := [if hint == none then NoneLine else SentinelLine, ReceivedLine(repr(hint))];
    assert '\n' !in ReceivedLine(repr(hint));
    assert Join(ls) == InvalidHintMessage(hint, none, repr);
    LinesOfJoin(ls);
  }

  /** Read line by line, a conflict message is the header, then the subscripted type, then the hint. */
  lemma SubscriptedTypeLines<H>(hint: H, subscripted: H, repr: H -> string)
    requires '\n' !in repr(hint) && '\n' !in repr(subscripted)
    ensures Lines(SubscriptedTypeMessage(hint, subscripted, repr))
         == [MatchHeader, SubscriptedLine(repr(subscripted)), HintLine(repr(hint))]
  {
    var ls := [MatchHeader, SubscriptedLine(repr(subscripted)), HintLine(repr(hint))];
    assert '\n' !in SubscriptedLine(repr(subscripted));
    assert '\n' !in HintLine(repr(hint));
    assert Join(ls) == SubscriptedTypeMessage(hint, subscripted, repr) by {
      assert ls[1..][1..] == [HintLine(repr(hint))];
      assert Join(ls[1..]) == SubscriptedLine(repr(subscripted)) + "\n" + HintLine(repr(hint));
    }
    LinesOfJoin(ls);
  }
}
