/**
 * Go's empty interface (`any`) as the three cells see it: a dynamic type and a
 * data word, Go's `==` on such values, panics as outcomes, and the vocabulary
 * (operations, results, traces) shared by the three cell models.
 */
module GoInterface {

  /** A dynamic type as its runtime type descriptor knows it: its name,
      whether `==` is defined on its values (a struct holding a slice, a map or
      a func is not comparable), and whether it is pointer-shaped (a pointer,
      `unsafe.Pointer`, a map or a chan), so that the data word is the value
      itself. */
  datatype GoType = GoType(name: string, comparable: bool, pointerShaped: bool)

  /** The data word of an interface value. `addr` is the word itself: the
      address of the boxed value, or, for a pointer-shaped type, the pointer
      that is the value. `val` stands for the bits of a boxed value that Go's
      `==` compares; for a pointer-shaped type it is unused. Two boxed
      payloads at different addresses may hold equal values. */
  datatype Payload = Payload(addr: nat, val: int)

  /** A Go `any`: the nil interface, or a dynamic type paired with a data word. */
  datatype Interface = Nil | Iface(typ: GoType, data: Payload)

  /** What `a == b` does on two interface values: answer, or panic with
      "comparing uncomparable type" when both hold the same type and that
      type has no `==`. */
  datatype Equality = Equal | NotEqual | Incomparable(t: GoType)

  /** A Go panic: the message a cell passes to `panic`, or the runtime's
      panic on `==` over an uncomparable type. */
  datatype PanicValue = Message(text: string) | UncomparableType(t: GoType)

  /** An operation either returns its result or panics. */
  datatype Outcome<R> = Ok(value: R) | Panic(reason: PanicValue)

  /** The state a cell operation leaves behind, and its outcome. */
  datatype Step<C, R> = Step(cell: C, out: Outcome<R>)

  /** The four operations every cell offers, as a caller issues them. */
  datatype Op =
    | LoadOp
    | StoreOp(v: Interface)
    | SwapOp(v: Interface)
    | CasOp(expected: Interface, desired: Interface)

  /** What an operation returns: nothing (Store), a value (Load, Swap) or a flag (CompareAndSwap). */
  datatype Ret = Unit | Val(v: Interface) | Flag(b: bool)

  /** The final cell and the outcomes of a sequence of operations run one at a time. */
  datatype Trace<C> = Trace(cell: C, outs: seq<Outcome<Ret>>)

  /** Go's predeclared `int`, used by the counter scenarios. */
  const IntType := GoType("int", true, false)

  /** Go's `==` on two `any` values: equal when both are nil, or when both hold
      the same dynamic type and equal values; values of different dynamic types
      are never equal. A pointer-shaped value is its data word, so two of them
      are equal exactly when the words are; a boxed value is compared by
      contents, whatever its address. */
  function Compare(a: Interface, b: Interface): Equality
  {
    match (a, b)
    case (Nil, Nil) => Equal
    case (Iface(s, p), Iface(t, q)) =>
      if s != t then NotEqual
      else if !s.comparable then Incomparable(s)
      else if s.pointerShaped then (if p.addr == q.addr then Equal else NotEqual)
      else if p.val == q.val then Equal else NotEqual
    case _ => NotEqual
  }

  /** `==` answers the same whichever side each value is on. */
  lemma CompareSymmetric(a: Interface, b: Interface)
    ensures Compare(a, b) == Compare(b, a)
  {
  }

  /** For a boxed type `==` is value equality, not pointer identity: two
      payloads at different addresses holding equal values of one comparable
      type compare equal. */
  lemma CompareIgnoresAddress(t: GoType, p: Payload, q: Payload)
    requires t.comparable && !t.pointerShaped && p.val == q.val
    ensures Compare(Iface(t, p), Iface(t, q)) == Equal
  {
  }

  /** For a pointer-shaped type `==` is pointer identity. */
  lemma ComparePointerIdentity(t: GoType, p: Payload, q: Payload)
    requires t.comparable && t.pointerShaped
    ensures Compare(Iface(t, p), Iface(t, q)) == Equal <==> p.addr == q.addr
    ensures Compare(Iface(t, p), Iface(t, q)) != Equal ==> Compare(Iface(t, p), Iface(t, q)) == NotEqual
  {
  }

  /** Equal values have the same dynamic type (both nil, or both the same type),
      and a nil value equals only nil. */
  lemma EqualMeansSameType(a: Interface, b: Interface)
    requires Compare(a, b) == Equal
    ensures a.Nil? <==> b.Nil?
    ensures a.Iface? ==> a.typ == b.typ
    ensures a.Iface? && a.typ.pointerShaped ==> a.data.addr == b.data.addr
    ensures a.Iface? && !a.typ.pointerShaped ==> a.data.val == b.data.val
  {
  }

  /** A Store outcome, as a generic operation result. */
  function AsUnit(o: Outcome<()>): Outcome<Ret>
  {
    if o.Ok? then Ok(Unit) else Panic(o.reason)
  }

  /** A Load or Swap outcome, as a generic operation result. */
  function AsVal(o: Outcome<Interface>): Outcome<Ret>
  {
    if o.Ok? then Ok(Val(o.value)) else Panic(o.reason)
  }

  /** A CompareAndSwap outcome, as a generic operation result. */
  function AsFlag(o: Outcome<bool>): Outcome<Ret>
  {
    if o.Ok? then Ok(Flag(o.value)) else Panic(o.reason)
  }

  /** One Swap per value, in order: what a goroutine of the swap tests issues. */
  function Swaps(xs: seq<Interface>): (ops: seq<Op>)
    ensures |ops| == |xs|
    ensures forall i :: 0 <= i < |xs| ==> ops[i] == SwapOp(xs[i])
  {
    seq(|xs|, i requires 0 <= i < |xs| => SwapOp(xs[i]))
  }

  /** The outcomes "returned ys[0], ys[1], ..." */
  function Returns(ys: seq<Interface>): (outs: seq<Outcome<Ret>>)
    ensures |outs| == |ys|
    ensures forall i :: 0 <= i < |ys| ==> outs[i] == Ok(Val(ys[i]))
  {
    seq(|ys|, i requires 0 <= i < |ys| => Ok(Val(ys[i])))
  }

  /** Swaps split at the first value. */
  lemma SwapsCons(xs: seq<Interface>)
    requires xs != []
    ensures Swaps(xs)[0] == SwapOp(xs[0]) && Swaps(xs)[1..] == Swaps(xs[1..])
  {
  }

  /** Returns split at the first value. */
  lemma ReturnsCons(y: Interface, ys: seq<Interface>)
    ensures Returns([y] + ys) == [Ok(Val(y))] + Returns(ys)
  {
  }

  /** `CompareAndSwap(j, j+1)` on `int` values: the step of the counter tests. */
  predicate IsIncrement(op: Op)
  {
    op.CasOp? && op.expected.Iface? && op.desired.Iface?
    && op.expected.typ == IntType && op.desired.typ == IntType
    && op.desired.data.val == op.expected.data.val + 1
  }

  /** How many of the outcomes are a successful CompareAndSwap. */
  function Successes(outs: seq<Outcome<Ret>>): nat
  {
    if outs == [] then 0
    else (if outs[0] == Ok(Flag(true)) then 1 else 0) + Successes(outs[1..])
  }
}
