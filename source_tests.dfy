/**
 * The repository's sequential test tables, replayed on the model: each lemma
 * states the results the Go tests expect.
 */
module SourceTests {
  import opened GoInterface
  import ValueCell
  import EntryCell

  const BoolType := GoType("bool", true, false)
  const StringType := GoType("string", true, false)
  const Int64Type := GoType("int64", true, false)
  const PointerType := GoType("unsafe.Pointer", true, true)
  const StructType := GoType("struct { uint }", true, false)

  const True := Iface(BoolType, Payload(100, 1))
  const False := Iface(BoolType, Payload(101, 0))
  const EmptyString := Iface(StringType, Payload(102, 0))
  /** `heapA` and `heapB`: equal struct values at different addresses. */
  const HeapA := Iface(StructType, Payload(103, 0))
  const HeapB := Iface(StructType, Payload(104, 0))
  const StructOne := Iface(StructType, Payload(105, 1))

  function Int(addr: nat, n: int): Interface
  {
    Iface(IntType, Payload(addr, n))
  }

  function Int64(addr: nat, n: int): Interface
  {
    Iface(Int64Type, Payload(addr, n))
  }

  /** A Value after `Store(init)`. */
  function ValueHolding(init: Interface): ValueCell.Cell
  {
    ValueCell.StoreStep(ValueCell.Fresh, init).cell
  }

  /** TestValue on one Value: fresh loads nil; stores load back; a stored nil
      loads nil. */
  method ValueLoadStore() returns (outs: seq<Outcome<Ret>>)
    ensures outs == [Ok(Val(Nil)), Ok(Unit), Ok(Val(Int(1, 42))), Ok(Unit), Ok(Val(Int(2, 84))),
                     Ok(Unit), Ok(Val(Nil))]
  {
    var v := new ValueCell.Value();
    var l0 := v.Load();
    var s1 := v.Store(Int(1, 42));
    var l1 := v.Load();
    var s2 := v.Store(Int(2, 84));
    var l2 := v.Load();
    var s3 := v.Store(Nil);
    var l3 := v.Load();
    outs := [Ok(Val(l0)), AsUnit(s1), Ok(Val(l1)), AsUnit(s2), Ok(Val(l2)), AsUnit(s3), Ok(Val(l3))];
  }

  /** TestValue's Swap part on a fresh Value: each Swap returns the value
      before it, nil while nothing non-nil was stored. */
  method ValueSwaps() returns (outs: seq<Outcome<Ret>>)
    ensures outs == [Ok(Val(Nil)), Ok(Val(Nil)), Ok(Val(Int(3, 1))), Ok(Val(Int(4, 2)))]
  {
    var v := new ValueCell.Value();
    var w0 := v.Swap(Nil);
    var w1 := v.Swap(Int(3, 1));
    var w2 := v.Swap(Int(4, 2));
    var w3 := v.Swap(Nil);
    outs := [AsVal(w0), AsVal(w1), AsVal(w2), AsVal(w3)];
  }

  /** TestValue's CompareAndSwap part on a fresh Value: from nil to 1, from an
      equal 1 to 2, from an equal 2 to nil. */
  method ValueCompareAndSwaps() returns (outs: seq<Outcome<Ret>>)
    ensures outs == [Ok(Flag(true)), Ok(Flag(true)), Ok(Flag(true))]
  {
    var v := new ValueCell.Value();
    var c0 := v.CompareAndSwap(Nil, Int(5, 1));
    var c1 := v.CompareAndSwap(Int(6, 1), Int(7, 2));
    var c2 := v.CompareAndSwap(Int(8, 2), Nil);
    outs := [AsFlag(c0), AsFlag(c1), AsFlag(c2)];
  }

  /** TestValuePanic: a store of another type panics with the quoted message. */
  lemma ValuePanic()
    ensures ValueCell.StoreStep(ValueHolding(Int(1, 42)), EmptyString)
            == Step(ValueHolding(Int(1, 42)), Panic(Message("store: store of inconsistently typed value into Value")))
  {
  }

  /** The Value_ValueSwapTests table. */
  lemma ValueSwapTable()
    ensures ValueCell.SwapStep(ValueCell.Fresh, Nil) == Step(ValueCell.Fresh, Ok(Nil))
    ensures var s := ValueCell.SwapStep(ValueCell.Fresh, True);
            s.out == Ok(Nil) && ValueCell.Loaded(s.cell) == True
    ensures ValueCell.SwapStep(ValueHolding(True), EmptyString).out
            == Panic(Message("store: swap of inconsistently typed value into Value"))
    ensures var s := ValueCell.SwapStep(ValueHolding(True), False);
            s.out == Ok(True) && ValueCell.Loaded(s.cell) == False
    ensures var s := ValueCell.SwapStep(ValueHolding(True), Nil);
            s.out == Ok(True) && ValueCell.Loaded(s.cell) == Nil
  {
  }

  /** The Value_CompareAndSwapTests table (arguments in the order
      expected, desired). */
  lemma ValueCompareAndSwapTable()
    ensures ValueCell.CasStep(ValueCell.Fresh, Nil, Nil).out == Ok(true)
    ensures ValueCell.CasStep(ValueCell.Fresh, EmptyString, True).out == Panic(Message(ValueCell.CasValuesMismatch))
    ensures ValueCell.CasStep(ValueCell.Fresh, True, True).out == Ok(false)
    ensures ValueCell.CasStep(ValueCell.Fresh, Nil, True).out == Ok(true)
    ensures ValueCell.CasStep(ValueHolding(True), Nil, EmptyString).out == Panic(Message(ValueCell.CasValueMismatch))
    ensures ValueCell.CasStep(ValueHolding(True), False, True).out == Ok(false)
    ensures ValueCell.CasStep(ValueHolding(True), True, True).out == Ok(true)
    ensures ValueCell.CasStep(ValueHolding(True), True, Nil).out == Ok(true)
    ensures ValueCell.CasStep(ValueHolding(True), Nil, Nil).out == Ok(false)
    ensures ValueCell.CasStep(ValueHolding(HeapA), HeapB, StructOne).out == Ok(true)
  {
  }

  /** TestInit on one Entry: fresh loads nil; a stored nil loads nil; a
      pointer loads as itself; successive stores may change type. */
  method EntryInit() returns (outs: seq<Interface>)
    ensures outs == [Nil, Nil, Iface(PointerType, Payload(7, 7)), Int(8, 42), Int64(9, 84)]
  {
    var e := new EntryCell.Entry();
    var l0 := e.Load();
    e.Store(Nil);
    var l1 := e.Load();
    e.Store(Iface(PointerType, Payload(7, 7)));
    var l2 := e.Load();
    e.Store(Int(8, 42));
    var l3 := e.Load();
    e.Store(Int64(9, 84));
    var l4 := e.Load();
    outs := [l0, l1, l2, l3, l4];
  }

  /** Test_CompareAndSwap, the rows of _CompareAndSwapTests whose init is nil,
      run one after another on one Entry. */
  method EntryCompareAndSwapFromNil() returns (outs: seq<Outcome<bool>>)
    ensures outs == [Ok(true), Ok(false), Ok(false), Ok(true), Ok(false)]
  {
    var e := new EntryCell.Entry();
    var c0 := e.CompareAndSwap(Nil, Nil);
    var c1 := e.CompareAndSwap(EmptyString, True);
    var c2 := e.CompareAndSwap(True, True);
    var c3 := e.CompareAndSwap(Nil, True);
    var c4 := e.CompareAndSwap(Int(1, 0), Int(2, 0));
    outs := [c0, c1, c2, c3, c4];
  }

  /** Test_CompareAndSwap, the next rows of _CompareAndSwapTests on the same
      Entry, each preceded by `Store(init)`: an int and then true. */
  method EntryCompareAndSwapAfterStore() returns (outs: seq<Outcome<bool>>)
    ensures outs == [Ok(true), Ok(false), Ok(false), Ok(true)]
  {
    var e := new EntryCell.Entry();
    e.Store(Int(3, 0));
    var c5 := e.CompareAndSwap(Int(4, 0), Int(5, 0));
    e.Store(True);
    var c6 := e.CompareAndSwap(Nil, EmptyString);
    e.Store(True);
    var c7 := e.CompareAndSwap(False, True);
    e.Store(True);
    var c8 := e.CompareAndSwap(True, True);
    outs := [c5, c6, c7, c8];
  }

  /** Test_CompareAndSwap, the last rows of _CompareAndSwapTests: a nil
      `desired`, a change of type, a mismatch of type, and equal values at
      different addresses. */
  method EntryCompareAndSwapTypeChanges() returns (outs: seq<Outcome<bool>>)
    ensures outs == [Ok(true), Ok(true), Ok(false), Ok(true)]
  {
    var e := new EntryCell.Entry();
    e.Store(True);
    var c9 := e.CompareAndSwap(True, Nil);
    e.Store(Int(6, 2));
    var c10 := e.CompareAndSwap(Int(7, 2), Int64(8, 2));
    e.Store(Int(9, 2));
    var c11 := e.CompareAndSwap(Int64(10, 2), Int(11, 2));
    e.Store(HeapA);
    var c12 := e.CompareAndSwap(HeapB, StructOne);
    outs := [c9, c10, c11, c12];
  }

  /** Test_Swap on an Entry, the rows whose swapped-in value has the
      stored type: each row stores init, swaps, then loads. */
  method EntrySwapTable() returns (outs: seq<Interface>)
    ensures outs == [True, False, True, True, False, True]
  {
    var e := new EntryCell.Entry();
    e.Store(True);
    var w0 := e.Swap(False);
    var l0 := e.Load();
    e.Store(True);
    var w1 := e.Swap(True);
    var l1 := e.Load();
    e.Store(False);
    var w2 := e.Swap(True);
    var l2 := e.Load();
    outs := [w0, l0, w1, l1, w2, l2];
  }
}
