/**
 * `Value` (value.go): a type-locked atomic cell over Go's two interface words.
 * The first non-nil store fixes the type word for good; later writes replace
 * only the data word and panic on a type change. An explicitly stored nil is
 * kept as the `empty` sentinel data word under the established type.
 *
 * Operations run one at a time: every claiming compare-and-swap of the type
 * word succeeds and the spin branches are never taken.
 */
module ValueCell {
  import opened GoInterface

  /** The type word. Besides nil and a type, a first store briefly writes a
      claim marker: `&empty` from Store, `^uintptr(0)` from Swap and
      CompareAndSwap. */
  datatype TypWord =
    | Unset
    | Tag(t: GoType)
    | StoreClaim
    | SwapClaim

  /** The data word: nil, a value's data word, or the `empty` sentinel that
      stands for an explicitly stored nil. */
  datatype DataWord =
    | NoData
    | Word(p: Payload)
    | EmptySentinel

  /** The two words of the cell. */
  datatype Cell = Cell(typ: TypWord, data: DataWord)

  const Fresh := Cell(Unset, NoData)

  const StoreMismatch := "store: store of inconsistently typed value into Value"
  const SwapMismatch := "store: swap of inconsistently typed value into Value"
  const CasValuesMismatch := "store: compare and swap of inconsistently typed values"
  const CasValueMismatch := "store: compare and swap of inconsistently typed value into Value"

  /** The cell between operations: empty, or a type with a value or the
      sentinel; never a claim marker. */
  predicate Valid(c: Cell)
  {
    (c.typ == Unset && c.data == NoData) || (c.typ.Tag? && !c.data.NoData?)
  }

  /** The two words of an interface value. */
  function WordsOf(a: Interface): Cell
  {
    match a
    case Nil => Cell(Unset, NoData)
    case Iface(t, p) => Cell(Tag(t), Word(p))
  }

  /** The words of an argument once nil is wrapped: the sentinel under the
      cell's current type word. */
  function NewWords(c: Cell, v: Interface): Cell
  {
    if v == Nil then Cell(c.typ, EmptySentinel) else WordsOf(v)
  }

  /** What Load returns. */
  function Loaded(c: Cell): (v: Interface)
    requires Valid(c)
    ensures v == Nil <==> c.typ == Unset || c.data == EmptySentinel
    ensures v.Iface? ==> WordsOf(v) == c
  {
    if c.typ == Unset || c.data == EmptySentinel then Nil
    else Iface(c.typ.t, c.data.p)
  }

  /** Store: a nil store into a never-stored cell does nothing; the first
      non-nil store installs both words; afterwards only the data word changes,
      nil becomes the sentinel, and a value of another type panics. */
  function StoreStep(c: Cell, v: Interface): (r: Step<Cell, ()>)
    requires Valid(c)
    ensures Valid(r.cell)
    ensures r.out.Panic? <==> c.typ.Tag? && v.Iface? && v.typ != c.typ.t
    ensures r.out.Panic? ==> r.cell == c && r.out.reason == Message(StoreMismatch)
    ensures r.out.Ok? ==> Loaded(r.cell) == v
    ensures c.typ.Tag? ==> r.cell.typ == c.typ
    ensures c.typ == Unset && v == Nil ==> r.cell == c
  {
    if c.typ == Unset then
      if v == Nil then Step(c, Ok(())) else Step(WordsOf(v), Ok(()))
    else
      var w := NewWords(c, v);
      if c.typ != w.typ then Step(c, Panic(Message(StoreMismatch)))
      else Step(Cell(c.typ, w.data), Ok(()))
  }

  /** Swap: like Store, and returns what Load returned before (nil on a
      never-stored cell and when the sentinel was held). */
  function SwapStep(c: Cell, v: Interface): (r: Step<Cell, Interface>)
    requires Valid(c)
    ensures Valid(r.cell)
    ensures r.out.Panic? <==> c.typ.Tag? && v.Iface? && v.typ != c.typ.t
    ensures r.out.Panic? ==> r.cell == c && r.out.reason == Message(SwapMismatch)
    ensures r.out.Ok? ==> r.out.value == Loaded(c) && Loaded(r.cell) == v
    ensures c.typ.Tag? ==> r.cell.typ == c.typ
    ensures c.typ == Unset && v == Nil ==> r.cell == c
  {
    if c.typ == Unset then
      if v == Nil then Step(c, Ok(Nil)) else Step(WordsOf(v), Ok(Nil))
    else
      var w := NewWords(c, v);
      if c.typ != w.typ then Step(c, Panic(Message(SwapMismatch)))
      else if c.data == EmptySentinel then Step(Cell(c.typ, w.data), Ok(Nil))
      else Step(Cell(c.typ, w.data), Ok(Iface(c.typ.t, c.data.p)))
  }

  /** The comparison at value.go:196 would read the `empty` sentinel as a
      boxed value of the stored type: the current words are the stored type
      with the sentinel, `expected` holds that comparable, boxed type, and the
      type checks before it pass. `empty` is a zeroed two-word allocation
      (value.go:21) that nothing writes, so for a boxed type of at most two
      words the comparison reads that type's zero value: an explicit nil then
      compares equal to the zero value. Larger types read past the allocation.
      The model gives these words no value semantics and leaves the case out.
      A pointer-shaped type compares the words themselves, and no caller holds
      the address `empty`, so that case is modelled. */
  predicate SentinelReinterpreted(c: Cell, expected: Interface, desired: Interface)
  {
    c.typ.Tag? && c.data == EmptySentinel && expected.Iface?
    && expected.typ == c.typ.t && expected.typ.comparable && !expected.typ.pointerShaped
    && (desired == Nil || desired.typ == expected.typ)
  }

  /** The stored words rebuilt as an interface and compared with `expected`.
      With the sentinel the rebuilt value has a non-nil type, so it differs
      from nil and from every other type; against a value of its own type it
      panics when the type has no `==`, and as a pointer it differs from every
      pointer a caller holds. */
  function CompareStored(c: Cell, expected: Interface): (e: Equality)
    requires Valid(c) && c.typ.Tag?
    requires !(c.data == EmptySentinel && expected.Iface? && expected.typ == c.typ.t
               && expected.typ.comparable && !expected.typ.pointerShaped)
    ensures c.data.Word? ==> e == Compare(Loaded(c), expected)
    ensures e == Equal ==> c.data.Word? && Compare(Loaded(c), expected) == Equal
    ensures c.data == EmptySentinel ==>
              (e.Incomparable? <==> expected.Iface? && expected.typ == c.typ.t && !expected.typ.comparable)
    ensures e.Incomparable? ==> e == Incomparable(c.typ.t)
  {
    if c.data == EmptySentinel then
      if expected.Iface? && expected.typ == c.typ.t && !expected.typ.comparable then Incomparable(expected.typ)
      else NotEqual
    else Compare(Iface(c.typ.t, c.data.p), expected)
  }

  /** The type checks at the head of CompareAndSwap (value.go:155, 187). */
  predicate CasTypeConflict(c: Cell, expected: Interface, desired: Interface)
  {
    (expected.Iface? && NewWords(c, desired).typ != Tag(expected.typ))
    || (c.typ.Tag? && NewWords(c, desired).typ != c.typ)
  }

  /** CompareAndSwap: panics on a type conflict; on a never-stored cell
      succeeds only for a nil `expected` (storing nothing when `desired` is nil
      too); otherwise succeeds exactly when the stored value equals `expected`,
      and then replaces the data word. */
  function CasStep(c: Cell, expected: Interface, desired: Interface): (r: Step<Cell, bool>)
    requires Valid(c) && !SentinelReinterpreted(c, expected, desired)
    ensures Valid(r.cell)
    ensures r.out != Ok(true) ==> r.cell == c
    ensures r.out == Ok(true) ==> Compare(Loaded(c), expected) == Equal && Loaded(r.cell) == desired
    ensures r.out == Ok(false) && c.data != EmptySentinel ==> Compare(Loaded(c), expected) == NotEqual
    ensures c.typ.Tag? ==> r.cell.typ == c.typ
    ensures r.out.Panic? <==>
              CasTypeConflict(c, expected, desired)
              || (c.typ.Tag? && expected.Iface? && expected.typ == c.typ.t && !expected.typ.comparable)
    ensures r.out == Panic(Message(CasValuesMismatch)) <==>
              expected.Iface? && NewWords(c, desired).typ != Tag(expected.typ)
    ensures r.out == Panic(Message(CasValueMismatch)) <==>
              !(expected.Iface? && NewWords(c, desired).typ != Tag(expected.typ))
              && c.typ.Tag? && NewWords(c, desired).typ != c.typ
    ensures r.out.Panic? && r.out.reason.UncomparableType? <==>
              !CasTypeConflict(c, expected, desired) && c.typ.Tag? && expected.Iface?
              && expected.typ == c.typ.t && !expected.typ.comparable
    ensures c.typ == Unset && expected == Nil && desired == Nil ==> r == Step(c, Ok(true))
  {
    var w := NewWords(c, desired);
    if expected.Iface? && w.typ != Tag(expected.typ) then Step(c, Panic(Message(CasValuesMismatch)))
    else if c.typ == Unset then
      if expected != Nil then Step(c, Ok(false))
      else if desired == Nil then Step(c, Ok(true))
      else Step(w, Ok(true))
    else if c.typ != w.typ then Step(c, Panic(Message(CasValueMismatch)))
    else match CompareStored(c, expected)
      case Incomparable(t) => Step(c, Panic(UncomparableType(t)))
      case NotEqual => Step(c, Ok(false))
      case Equal => Step(Cell(c.typ, w.data), Ok(true))
  }

  /** The one operation whose outcome the model leaves open. */
  predicate Allowed(c: Cell, op: Op)
  {
    op.CasOp? ==> !SentinelReinterpreted(c, op.expected, op.desired)
  }

  /** One operation, as a caller issues it. */
  function Exec(c: Cell, op: Op): (r: Step<Cell, Ret>)
    requires Valid(c) && Allowed(c, op)
    ensures Valid(r.cell)
    ensures c.typ.Tag? ==> r.cell.typ == c.typ
  {
    match op
    case LoadOp => Step(c, Ok(Val(Loaded(c))))
    case StoreOp(v) => var s := StoreStep(c, v); Step(s.cell, AsUnit(s.out))
    case SwapOp(v) => var s := SwapStep(c, v); Step(s.cell, AsVal(s.out))
    case CasOp(e, d) => var s := CasStep(c, e, d); Step(s.cell, AsFlag(s.out))
  }

  /** Every operation of the sequence is allowed in the state it is issued in. */
  predicate RunAllowed(c: Cell, ops: seq<Op>)
    requires Valid(c)
    decreases |ops|
  {
    ops == [] || (Allowed(c, ops[0]) && RunAllowed(Exec(c, ops[0]).cell, ops[1..]))
  }

  /** Operations run one after another; no claim marker survives any of them. */
  function Run(c: Cell, ops: seq<Op>): (tr: Trace<Cell>)
    requires Valid(c) && RunAllowed(c, ops)
    ensures Valid(tr.cell)
    ensures |tr.outs| == |ops|
    decreases |ops|
  {
    if ops == [] then Trace(c, [])
    else
      var s := Exec(c, ops[0]);
      var rest := Run(s.cell, ops[1..]);
      Trace(rest.cell, [s.out] + rest.outs)
  }

  /** Type lock: once a type word is set, no sequence of operations changes it
      or returns it to unset. */
  lemma {:induction false} TypeLockedForever(c: Cell, ops: seq<Op>)
    requires Valid(c) && RunAllowed(c, ops) && c.typ.Tag?
    ensures Run(c, ops).cell.typ == c.typ
    decreases |ops|
  {
    if ops != [] {
      TypeLockedForever(Exec(c, ops[0]).cell, ops[1..]);
    }
  }

  /** Swap accounting: with every non-nil value of one type, each Swap returns
      what the one before it installed, so the returned values followed by the
      final Load are exactly the initial Load followed by the swapped-in
      values; nothing is lost or returned twice. */
  lemma {:induction false} SwapAccounting(c: Cell, xs: seq<Interface>, t: GoType)
    requires Valid(c) && (c.typ == Unset || c.typ == Tag(t))
    requires forall i :: 0 <= i < |xs| ==> xs[i] == Nil || xs[i].typ == t
    ensures RunAllowed(c, Swaps(xs))
    ensures var tr := Run(c, Swaps(xs));
            tr.outs + [Ok(Val(Loaded(tr.cell)))] == Returns([Loaded(c)] + xs)
    decreases |xs|
  {
    if xs == [] {
      assert Swaps(xs) == [];
    } else {
      var s := SwapStep(c, xs[0]);
      SwapAccounting(s.cell, xs[1..], t);
      RunSwapsCons(c, xs);
      var rest := Run(s.cell, Swaps(xs[1..]));
      assert [Loaded(s.cell)] + xs[1..] == xs;
      ReturnsCons(Loaded(c), xs);
      var last := [Ok(Val(Loaded(rest.cell)))];
      assert ([Ok(Val(Loaded(c)))] + rest.outs) + last == [Ok(Val(Loaded(c)))] + (rest.outs + last);
    }
  }

  /** The first Swap of a run of swaps, split off. */
  lemma RunSwapsCons(c: Cell, xs: seq<Interface>)
    requires Valid(c) && xs != [] && SwapStep(c, xs[0]).out.Ok?
    requires RunAllowed(SwapStep(c, xs[0]).cell, Swaps(xs[1..]))
    ensures RunAllowed(c, Swaps(xs))
    ensures var s := SwapStep(c, xs[0]);
            var rest := Run(s.cell, Swaps(xs[1..]));
            s.out == Ok(Loaded(c)) && Loaded(s.cell) == xs[0]
            && Run(c, Swaps(xs)) == Trace(rest.cell, [Ok(Val(Loaded(c)))] + rest.outs)
  {
    SwapsCons(xs);
  }

  /** The counter race run one at a time: starting from an `int`, a sequence of
      CompareAndSwap(j, j+1) attempts never panics and leaves an `int` equal to
      the start plus the number of attempts that succeeded. */
  lemma {:induction false} CasCounter(c: Cell, ops: seq<Op>)
    requires Valid(c) && Loaded(c).Iface? && Loaded(c).typ == IntType
    requires forall i :: 0 <= i < |ops| ==> IsIncrement(ops[i])
    ensures RunAllowed(c, ops)
    ensures var tr := Run(c, ops);
            (forall i :: 0 <= i < |tr.outs| ==> tr.outs[i].Ok?)
            && Loaded(tr.cell).Iface? && Loaded(tr.cell).typ == IntType
            && Loaded(tr.cell).data.val == Loaded(c).data.val + Successes(tr.outs)
    decreases |ops|
  {
    if ops != [] {
      var s := Exec(c, ops[0]);
      CasCounter(s.cell, ops[1..]);
      var rest := Run(s.cell, ops[1..]);
      assert ([s.out] + rest.outs)[1..] == rest.outs;
    }
  }

  /** An explicitly stored nil loads as nil, yet CompareAndSwap(nil, x) then
      fails: the rebuilt current value has the stored type, so it is not nil. */
  lemma ExplicitNilIsNotNilToCas(c: Cell, desired: Interface)
    requires Valid(c) && c.typ.Tag? && (desired == Nil || desired.typ == c.typ.t)
    ensures var s := StoreStep(c, Nil);
            s.out.Ok? && Loaded(s.cell) == Nil && CasStep(s.cell, Nil, desired) == Step(s.cell, Ok(false))
  {
  }

  /** After `Store(p)` and `Store(nil)` of a pointer-shaped type, the cell
      holds the `empty` address under that type, which equals no pointer a
      caller passes: CompareAndSwap(p, q) returns false and changes nothing. */
  lemma PointerCasAfterExplicitNil(t: GoType, p: Payload, q: Payload)
    requires t.comparable && t.pointerShaped
    ensures var c := StoreStep(StoreStep(Fresh, Iface(t, p)).cell, Nil).cell;
            CasStep(c, Iface(t, p), Iface(t, q)) == Step(c, Ok(false))
  {
    var c := StoreStep(StoreStep(Fresh, Iface(t, p)).cell, Nil).cell;
    assert c == Cell(Tag(t), EmptySentinel);
  }

  /** The cell as value.go lays it out: a type word and a data word. */
  class Value {
    var typ: TypWord
    var data: DataWord

    function State(): Cell
      reads this
    {
      Cell(typ, data)
    }

    /** The zero Value. */
    constructor ()
      ensures State() == Fresh
    {
      typ := Unset;
      data := NoData;
    }

    method Load() returns (v: Interface)
      requires Valid(State())
      ensures v == Loaded(State())
    {
      var t := typ;
      if t == Unset || t == StoreClaim {
        return Nil;
      }
      var d := data;
      if d == EmptySentinel {
        return Nil;
      }
      v := Iface(t.t, d.p);
    }

    method Store(v: Interface) returns (out: Outcome<()>)
      requires Valid(State())
      modifies this
      ensures Valid(State())
      ensures Step(State(), out) == StoreStep(old(State()), v)
    {
      var t := typ;
      if t == Unset {
        if v == Nil {
          return Ok(());
        }
        typ := StoreClaim;
        data := Word(v.data);
        typ := Tag(v.typ);
        return Ok(());
      }
      var w := if v == Nil then Cell(t, EmptySentinel) else WordsOf(v);
      if t != w.typ {
        return Panic(Message(StoreMismatch));
      }
      data := w.data;
      out := Ok(());
    }

    method Swap(v: Interface) returns (out: Outcome<Interface>)
      requires Valid(State())
      modifies this
      ensures Valid(State())
      ensures Step(State(), out) == SwapStep(old(State()), v)
    {
      var t := typ;
      if t == Unset {
        if v == Nil {
          return Ok(Nil);
        }
        typ := SwapClaim;
        data := Word(v.data);
        typ := Tag(v.typ);
        return Ok(Nil);
      }
      var w := if v == Nil then Cell(t, EmptySentinel) else WordsOf(v);
      if t != w.typ {
        return Panic(Message(SwapMismatch));
      }
      var d := data;
      data := w.data;
      if d == EmptySentinel {
        return Ok(Nil);
      }
      out := Ok(Iface(t.t, d.p));
    }

    method CompareAndSwap(expected: Interface, desired: Interface) returns (out: Outcome<bool>)
      requires Valid(State()) && !SentinelReinterpreted(State(), expected, desired)
      modifies this
      ensures Valid(State())
      ensures Step(State(), out) == CasStep(old(State()), expected, desired)
    {
      var w := if desired == Nil then Cell(typ, EmptySentinel) else WordsOf(desired);
      if expected.Iface? && w.typ != Tag(expected.typ) {
        return Panic(Message(CasValuesMismatch));
      }
      var t := typ;
      if t == Unset {
        if expected != Nil {
          return Ok(false);
        }
        if desired == Nil {
          return Ok(true);
        }
        typ := SwapClaim;
        data := w.data;
        typ := w.typ;
        return Ok(true);
      }
      if t != w.typ {
        return Panic(Message(CasValueMismatch));
      }
      match CompareStored(State(), expected) {
        case Incomparable(u) =>
          return Panic(UncomparableType(u));
        case NotEqual =>
          return Ok(false);
        case Equal =>
          data := w.data;
          return Ok(true);
      }
    }
  }
}
