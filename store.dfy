/**
 * `Entry` (store.go): an atomic cell over Go's two interface words with no
 * type lock. Store rewrites nil to the `nilAny` sentinel value, so a stored nil
 * keeps the cell non-empty while it loads as nil. Swap on a non-empty cell
 * replaces only the data word; CompareAndSwap replaces the data word and then
 * the type word.
 *
 * Operations run one at a time: every claiming compare-and-swap of the type
 * word succeeds and the spin branches are never taken.
 */
module EntryCell {
  import opened GoInterface

  /** The type word. A first store briefly writes a claim marker:
      `&firstStoreInProgress` from Store, `^uintptr(0)` from Swap and
      CompareAndSwap. */
  datatype TypWord =
    | Unset
    | Tag(t: GoType)
    | FirstStoreInProgress
    | AllOnes

  /** The data word: nil, or a value's data word. */
  datatype DataWord = NoData | Word(p: Payload)

  /** The two words of the cell. */
  datatype Cell = Cell(typ: TypWord, data: DataWord)

  const Fresh := Cell(Unset, NoData)

  /** The dynamic type of `nilAny`, a `*any`. */
  const NilAnyType := GoType("*interface {}", true, true)

  /** The address `new(any)` gave `nilAny`. */
  const NilAnyAddr: nat := 1

  /** `nilAny`: the pointer stored in place of nil. */
  const NilAny := Iface(NilAnyType, Payload(NilAnyAddr, 0))

  /** The cell between operations: empty, or a type with its data word; never
      a claim marker. */
  predicate Valid(c: Cell)
  {
    (c.typ == Unset && c.data == NoData) || (c.typ.Tag? && c.data.Word?)
  }

  /** The two words of an interface value. */
  function WordsOf(a: Interface): Cell
  {
    match a
    case Nil => Cell(Unset, NoData)
    case Iface(t, p) => Cell(Tag(t), Word(p))
  }

  /** The interface value the two words form. */
  function Current(c: Cell): (v: Interface)
    requires Valid(c)
    ensures WordsOf(v) == c
  {
    if c.typ == Unset then Nil else Iface(c.typ.t, c.data.p)
  }

  /** What Load returns: the stored value, except that `nilAny` loads as nil. */
  function Loaded(c: Cell): (v: Interface)
    requires Valid(c)
    ensures v == Nil <==> c.typ == Unset || Compare(Current(c), NilAny) == Equal
    ensures v.Iface? ==> v == Current(c)
  {
    if c.typ == Unset then Nil
    else
      var v := Iface(c.typ.t, c.data.p);
      if Compare(v, NilAny) == Equal then Nil else v
  }

  /** Store: both words are replaced whatever the types involved; nil is
      stored as `nilAny`, which leaves the cell non-empty and loads as nil. */
  function StoreStep(c: Cell, v: Interface): (r: Step<Cell, ()>)
    requires Valid(c)
    ensures Valid(r.cell) && r.out == Ok(())
    ensures r.cell.typ != Unset
    ensures Current(r.cell) == if v == Nil then NilAny else v
    ensures Compare(v, NilAny) != Equal ==> Loaded(r.cell) == v
  {
    Step(WordsOf(if v == Nil then NilAny else v), Ok(()))
  }

  /** What Swap demands of its caller once the cell is non-empty: a non-nil
      value of the stored type (store.go:92-96). */
  predicate SwapAllowed(c: Cell, v: Interface)
  {
    c.typ.Tag? ==> v.Iface? && v.typ == c.typ.t
  }

  /** Swap: on an empty cell installs both words (nil leaves it empty) and
      returns nil; otherwise replaces the data word only and returns the type
      of `v` paired with the previous data word, which is the previous value. */
  function SwapStep(c: Cell, v: Interface): (r: Step<Cell, Interface>)
    requires Valid(c) && SwapAllowed(c, v)
    ensures Valid(r.cell)
    ensures r.out == Ok(Current(c)) && Current(r.cell) == v
    ensures c.typ.Tag? ==> r.cell.typ == c.typ
  {
    var w := WordsOf(v);
    if c.typ == Unset then Step(w, Ok(Nil))
    else Step(Cell(c.typ, w.data), Ok(Iface(v.typ, c.data.p)))
  }

  /** CompareAndSwap: succeeds exactly when the stored value equals
      `expected` (nil matches only the empty cell) and then installs both
      words of `desired`, so the type may change and a nil `desired` empties
      the cell; otherwise nothing changes. */
  function CasStep(c: Cell, expected: Interface, desired: Interface): (r: Step<Cell, bool>)
    requires Valid(c)
    ensures Valid(r.cell)
    ensures r.out == Ok(true) <==> Compare(Current(c), expected) == Equal
    ensures r.out == Ok(false) <==> Compare(Current(c), expected) == NotEqual
    ensures r.out.Panic? ==> r.out.reason == UncomparableType(Current(c).typ)
    ensures r.out == Ok(true) ==> Current(r.cell) == desired
    ensures r.out != Ok(true) ==> r.cell == c
  {
    if c.typ == Unset then
      if expected != Nil then Step(c, Ok(false)) else Step(WordsOf(desired), Ok(true))
    else match Compare(Iface(c.typ.t, c.data.p), expected)
      case Incomparable(t) => Step(c, Panic(UncomparableType(t)))
      case NotEqual => Step(c, Ok(false))
      case Equal => Step(WordsOf(desired), Ok(true))
  }

  /** The one operation with a demand on its caller. */
  predicate Allowed(c: Cell, op: Op)
  {
    op.SwapOp? ==> SwapAllowed(c, op.v)
  }

  /** One operation, as a caller issues it. */
  function Exec(c: Cell, op: Op): (r: Step<Cell, Ret>)
    requires Valid(c) && Allowed(c, op)
    ensures Valid(r.cell)
  {
    match op
    case LoadOp => Step(c, Ok(Val(Loaded(c))))
    case StoreOp(v) => var s := StoreStep(c, v); Step(s.cell, AsUnit(s.out))
    case SwapOp(v) => var s := SwapStep(c, v); Step(s.cell, AsVal(s.out))
    case CasOp(e, d) => var s := CasStep(c, e, d); Step(s.cell, AsFlag(s.out))
  }

  /** Every operation of the sequence is allowed in the state it is issued in. */
  predicate RunAllowed(c: Cell, ops: seq<Op>)
    requires Valid(c)
    decreases |ops|
  {
    ops == [] || (Allowed(c, ops[0]) && RunAllowed(Exec(c, ops[0]).cell, ops[1..]))
  }

  /** Operations run one after another; no claim marker survives any of them. */
  function Run(c: Cell, ops: seq<Op>): (tr: Trace<Cell>)
    requires Valid(c) && RunAllowed(c, ops)
    ensures Valid(tr.cell)
    ensures |tr.outs| == |ops|
    decreases |ops|
  {
    if ops == [] then Trace(c, [])
    else
      var s := Exec(c, ops[0]);
      var rest := Run(s.cell, ops[1..]);
      Trace(rest.cell, [s.out] + rest.outs)
  }

  /** Swap accounting: with every value non-nil and of one type, each Swap
      returns what the one before it installed, so the returned values
      followed by the final stored value are exactly the initial stored value
      followed by the swapped-in values. */
  lemma {:induction false} SwapAccounting(c: Cell, xs: seq<Interface>, t: GoType)
    requires Valid(c) && (c.typ == Unset || c.typ == Tag(t))
    requires forall i :: 0 <= i < |xs| ==> xs[i].Iface? && xs[i].typ == t
    ensures RunAllowed(c, Swaps(xs))
    ensures var tr := Run(c, Swaps(xs));
            tr.outs + [Ok(Val(Current(tr.cell)))] == Returns([Current(c)] + xs)
    decreases |xs|
  {
    if xs == [] {
      assert Swaps(xs) == [];
    } else {
      var s := SwapStep(c, xs[0]);
      SwapAccounting(s.cell, xs[1..], t);
      RunSwapsCons(c, xs);
      var rest := Run(s.cell, Swaps(xs[1..]));
      assert [Current(s.cell)] + xs[1..] == xs;
      ReturnsCons(Current(c), xs);
      var last := [Ok(Val(Current(rest.cell)))];
      assert ([Ok(Val(Current(c)))] + rest.outs) + last == [Ok(Val(Current(c)))] + (rest.outs + last);
    }
  }

  /** The first Swap of a run of swaps, split off. */
  lemma RunSwapsCons(c: Cell, xs: seq<Interface>)
    requires Valid(c) && xs != [] && SwapAllowed(c, xs[0])
    requires RunAllowed(SwapStep(c, xs[0]).cell, Swaps(xs[1..]))
    ensures RunAllowed(c, Swaps(xs))
    ensures var s := SwapStep(c, xs[0]);
            var rest := Run(s.cell, Swaps(xs[1..]));
            s.out == Ok(Current(c)) && Current(s.cell) == xs[0]
            && Run(c, Swaps(xs)) == Trace(rest.cell, [Ok(Val(Current(c)))] + rest.outs)
  {
    SwapsCons(xs);
  }

  /** The counter race run one at a time: starting from an `int`, a sequence of
      CompareAndSwap(j, j+1) attempts never panics and leaves an `int` equal to
      the start plus the number of attempts that succeeded. */
  lemma {:induction false} CasCounter(c: Cell, ops: seq<Op>)
    requires Valid(c) && Loaded(c).Iface? && Loaded(c).typ == IntType
    requires forall i :: 0 <= i < |ops| ==> IsIncrement(ops[i])
    ensures RunAllowed(c, ops)
    ensures var tr := Run(c, ops);
            (forall i :: 0 <= i < |tr.outs| ==> tr.outs[i].Ok?)
            && Loaded(tr.cell).Iface? && Loaded(tr.cell).typ == IntType
            && Loaded(tr.cell).data.val == Loaded(c).data.val + Successes(tr.outs)
    decreases |ops|
  {
    if ops != [] {
      var s := Exec(c, ops[0]);
      CasCounter(s.cell, ops[1..]);
      var rest := Run(s.cell, ops[1..]);
      assert ([s.out] + rest.outs)[1..] == rest.outs;
    }
  }

  /** A stored nil loads as nil, yet CompareAndSwap(nil, x) then fails: the
      cell holds `nilAny`, which is not nil. */
  lemma StoredNilIsNotNilToCas(c: Cell, desired: Interface)
    requires Valid(c)
    ensures var s := StoreStep(c, Nil);
            Loaded(s.cell) == Nil && CasStep(s.cell, Nil, desired) == Step(s.cell, Ok(false))
  {
  }

  /** Only `nilAny` itself loads as nil: any other `*any`, even one pointing
      at a nil interface, is stored and loaded as itself. */
  lemma OtherPointerLoadsAsItself(c: Cell, v: Interface)
    requires Valid(c) && v.Iface? && v.typ == NilAnyType && v.data.addr != NilAnyAddr
    ensures Loaded(StoreStep(c, v).cell) == v
  {
    assert Compare(v, NilAny) == NotEqual;
  }

  /** The cell as store.go lays it out: a type word and a data word. */
  class Entry {
    var typ: TypWord
    var data: DataWord

    function State(): Cell
      reads this
    {
      Cell(typ, data)
    }

    /** The zero Entry. */
    constructor ()
      ensures State() == Fresh
    {
      typ := Unset;
      data := NoData;
    }

    method Load() returns (v: Interface)
      requires Valid(State())
      ensures v == Loaded(State())
    {
      var t := typ;
      if t == Unset || t == FirstStoreInProgress {
        return Nil;
      }
      var d := data;
      v := Iface(t.t, d.p);
      if Compare(v, NilAny) == Equal {
        v := Nil;
      }
    }

    method Store(v: Interface)
      requires Valid(State())
      modifies this
      ensures Valid(State())
      ensures Step(State(), Ok(())) == StoreStep(old(State()), v)
    {
      var w := WordsOf(if v == Nil then NilAny else v);
      if typ == Unset {
        typ := FirstStoreInProgress;
        data := w.data;
        typ := w.typ;
        return;
      }
      data := w.data;
      typ := w.typ;
    }

    method Swap(v: Interface) returns (previous: Interface)
      requires Valid(State()) && SwapAllowed(State(), v)
      modifies this
      ensures Valid(State())
      ensures Step(State(), Ok(previous)) == SwapStep(old(State()), v)
    {
      var w := WordsOf(v);
      if typ == Unset {
        typ := AllOnes;
        data := w.data;
        typ := w.typ;
        return Nil;
      }
      var d := data;
      data := w.data;
      previous := Iface(v.typ, d.p);
    }

    method CompareAndSwap(expected: Interface, desired: Interface) returns (out: Outcome<bool>)
      requires Valid(State())
      modifies this
      ensures Valid(State())
      ensures Step(State(), out) == CasStep(old(State()), expected, desired)
    {
      var w := WordsOf(desired);
      var t := typ;
      if t == Unset {
        if expected != Nil {
          return Ok(false);
        }
        typ := AllOnes;
        data := w.data;
        typ := w.typ;
        return Ok(true);
      }
      var d := data;
      match Compare(Iface(t.t, d.p), expected) {
        case Incomparable(u) =>
          return Panic(UncomparableType(u));
        case NotEqual =>
          return Ok(false);
        case Equal =>
          data := w.data;
          typ := w.typ;
          return Ok(true);
      }
    }
  }
}
