/**
 * `Any` (any.go): a plain atomic cell over Go's two interface words. Store
 * and Swap replace both words unconditionally, whatever the type, and a nil
 * store empties the cell; CompareAndSwap compares the current value (nil when
 * empty) with `expected` and on a match installs both words of `desired`.
 *
 * Operations run one at a time: every claiming compare-and-swap of the type
 * word succeeds and the spin branches are never taken.
 */
module AnyCell {
  import opened GoInterface

  /** The type word. Store briefly writes `&changeInProgress`, Swap the
      pointer `changeInProgress` itself. */
  datatype TypWord =
    | Unset
    | Tag(t: GoType)
    | AddrOfChangeInProgress
    | ChangeInProgress

  /** The data word: nil, or a value's data word. */
  datatype DataWord = NoData | Word(p: Payload)

  /** The two words of the cell. */
  datatype Cell = Cell(typ: TypWord, data: DataWord)

  const Fresh := Cell(Unset, NoData)

  /** The cell between operations: the two words of some interface value;
      never a marker. */
  predicate Valid(c: Cell)
  {
    (c.typ == Unset && c.data == NoData) || (c.typ.Tag? && c.data.Word?)
  }

  /** The two words of an interface value. */
  function WordsOf(a: Interface): (c: Cell)
    ensures Valid(c)
  {
    match a
    case Nil => Cell(Unset, NoData)
    case Iface(t, p) => Cell(Tag(t), Word(p))
  }

  /** What Load returns: nil on an empty cell, otherwise the two words as a
      value; the words of a value load back as that value. */
  function Loaded(c: Cell): (v: Interface)
    requires Valid(c)
    ensures WordsOf(v) == c
  {
    if c.typ == Unset then Nil else Iface(c.typ.t, c.data.p)
  }

  /** Store: both words become those of `v`, whatever its type. */
  function StoreStep(c: Cell, v: Interface): (r: Step<Cell, ()>)
    requires Valid(c)
    ensures Valid(r.cell) && r.out == Ok(())
    ensures Loaded(r.cell) == v
  {
    Step(WordsOf(v), Ok(()))
  }

  /** Swap: both words become those of `v`; returns the previous value. */
  function SwapStep(c: Cell, v: Interface): (r: Step<Cell, Interface>)
    requires Valid(c)
    ensures Valid(r.cell)
    ensures r.out == Ok(Loaded(c)) && Loaded(r.cell) == v
  {
    Step(WordsOf(v), Ok(Loaded(c)))
  }

  /** CompareAndSwap: succeeds exactly when the current value (nil when empty)
      equals `expected`, and then installs both words of `desired`;
      otherwise nothing changes. */
  function CasStep(c: Cell, expected: Interface, desired: Interface): (r: Step<Cell, bool>)
    requires Valid(c)
    ensures Valid(r.cell)
    ensures r.out == Ok(true) <==> Compare(Loaded(c), expected) == Equal
    ensures r.out == Ok(false) <==> Compare(Loaded(c), expected) == NotEqual
    ensures r.out.Panic? ==> r.out.reason == UncomparableType(Loaded(c).typ)
    ensures r.out == Ok(true) ==> Loaded(r.cell) == desired
    ensures r.out != Ok(true) ==> r.cell == c
  {
    var current := if c.typ == Unset then Nil else Iface(c.typ.t, c.data.p);
    match Compare(current, expected)
    case Incomparable(t) => Step(c, Panic(UncomparableType(t)))
    case NotEqual => Step(c, Ok(false))
    case Equal => Step(WordsOf(desired), Ok(true))
  }

  /** One operation, as a caller issues it. */
  function Exec(c: Cell, op: Op): (r: Step<Cell, Ret>)
    requires Valid(c)
    ensures Valid(r.cell)
  {
    match op
    case LoadOp => Step(c, Ok(Val(Loaded(c))))
    case StoreOp(v) => var s := StoreStep(c, v); Step(s.cell, AsUnit(s.out))
    case SwapOp(v) => var s := SwapStep(c, v); Step(s.cell, AsVal(s.out))
    case CasOp(e, d) => var s := CasStep(c, e, d); Step(s.cell, AsFlag(s.out))
  }

  /** Operations run one after another; no marker survives any of them. */
  function Run(c: Cell, ops: seq<Op>): (tr: Trace<Cell>)
    requires Valid(c)
    ensures Valid(tr.cell)
    ensures |tr.outs| == |ops|
    decreases |ops|
  {
    if ops == [] then Trace(c, [])
    else
      var s := Exec(c, ops[0]);
      var rest := Run(s.cell, ops[1..]);
      Trace(rest.cell, [s.out] + rest.outs)
  }

  /** Swap accounting: each Swap returns what the one before it installed, so
      the returned values followed by the final Load are exactly the initial
      Load followed by the swapped-in values, of any types, nil included. */
  lemma {:induction false} SwapAccounting(c: Cell, xs: seq<Interface>)
    requires Valid(c)
    ensures var tr := Run(c, Swaps(xs));
            tr.outs + [Ok(Val(Loaded(tr.cell)))] == Returns([Loaded(c)] + xs)
    decreases |xs|
  {
    if xs != [] {
      var s := SwapStep(c, xs[0]);
      RunSwapsCons(c, xs);
      SwapAccounting(s.cell, xs[1..]);
      var rest := Run(s.cell, Swaps(xs[1..]));
      assert [Loaded(s.cell)] + xs[1..] == xs;
      ReturnsCons(Loaded(c), xs);
      var last := [Ok(Val(Loaded(rest.cell)))];
      assert ([Ok(Val(Loaded(c)))] + rest.outs) + last == [Ok(Val(Loaded(c)))] + (rest.outs + last);
    }
  }

  /** The first Swap of a run of swaps, split off. */
  lemma RunSwapsCons(c: Cell, xs: seq<Interface>)
    requires Valid(c) && xs != []
    ensures var s := SwapStep(c, xs[0]);
            var rest := Run(s.cell, Swaps(xs[1..]));
            s.out == Ok(Loaded(c)) && Loaded(s.cell) == xs[0]
            && Run(c, Swaps(xs)) == Trace(rest.cell, [Ok(Val(Loaded(c)))] + rest.outs)
  {
    SwapsCons(xs);
  }

  /** The counter race run one at a time: starting from an `int`, a sequence of
      CompareAndSwap(j, j+1) attempts never panics and leaves an `int` equal to
      the start plus the number of attempts that succeeded. */
  lemma {:induction false} CasCounter(c: Cell, ops: seq<Op>)
    requires Valid(c) && Loaded(c).Iface? && Loaded(c).typ == IntType
    requires forall i :: 0 <= i < |ops| ==> IsIncrement(ops[i])
    ensures var tr := Run(c, ops);
            (forall i :: 0 <= i < |tr.outs| ==> tr.outs[i].Ok?)
            && Loaded(tr.cell).Iface? && Loaded(tr.cell).typ == IntType
            && Loaded(tr.cell).data.val == Loaded(c).data.val + Successes(tr.outs)
    decreases |ops|
  {
    if ops != [] {
      var s := Exec(c, ops[0]);
      CasCounter(s.cell, ops[1..]);
      var rest := Run(s.cell, ops[1..]);
      assert ([s.out] + rest.outs)[1..] == rest.outs;
    }
  }

  /** The cell as any.go lays it out: a type word and a data word. */
  class Any {
    var typ: TypWord
    var data: DataWord

    function State(): Cell
      reads this
    {
      Cell(typ, data)
    }

    /** The zero Any. */
    constructor ()
      ensures State() == Fresh
    {
      typ := Unset;
      data := NoData;
    }

    method Load() returns (v: Interface)
      requires Valid(State())
      ensures v == Loaded(State())
    {
      var t := typ;
      if t == Unset {
        return Nil;
      }
      // Between operations t is never a marker, so the spin at any.go:30-33 is not taken.
      v := Iface(t.t, data.p);
    }

    method Store(v: Interface)
      requires Valid(State())
      modifies this
      ensures Valid(State())
      ensures Step(State(), Ok(())) == StoreStep(old(State()), v)
    {
      var w := WordsOf(v);
      typ := AddrOfChangeInProgress;
      data := w.data;
      typ := w.typ;
    }

    method Swap(v: Interface) returns (previous: Interface)
      requires Valid(State())
      modifies this
      ensures Valid(State())
      ensures Step(State(), Ok(previous)) == SwapStep(old(State()), v)
    {
      var w := WordsOf(v);
      var t := typ;
      typ := ChangeInProgress;
      var d := data;
      data := w.data;
      previous := if t == Unset then Nil else Iface(t.t, d.p);
      typ := w.typ;
    }

    method CompareAndSwap(expected: Interface, desired: Interface) returns (out: Outcome<bool>)
      requires Valid(State())
      modifies this
      ensures Valid(State())
      ensures Step(State(), out) == CasStep(old(State()), expected, desired)
    {
      var w := WordsOf(desired);
      var t := typ;
      var d := data;
      var current := if t == Unset then Nil else Iface(t.t, d.p);
      match Compare(current, expected) {
        case Incomparable(u) =>
          return Panic(UncomparableType(u));
        case NotEqual =>
          return Ok(false);
        case Equal =>
          data := w.data;
          typ := w.typ;
          return Ok(true);
      }
    }
  }
}
