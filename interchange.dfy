/**
 * The three cells are interchangeable for a caller that only ever passes
 * non-nil values of one type: run one at a time, the same operations give the
 * same results on a Value, an Entry and an Any.
 */
module Interchange {
  import opened GoInterface
  import ValueCell
  import EntryCell
  import AnyCell

  /** A value a caller outside the package may pass: non-nil, of type `t`,
      and not the package's own `nilAny` pointer. */
  predicate CallerValue(v: Interface, t: GoType)
  {
    v.Iface? && v.typ == t && Compare(v, EntryCell.NilAny) != Equal
  }

  /** Every value the operation carries is such a value. */
  predicate OfType(op: Op, t: GoType)
  {
    match op
    case LoadOp => true
    case StoreOp(v) => CallerValue(v, t)
    case SwapOp(v) => CallerValue(v, t)
    case CasOp(e, d) => CallerValue(e, t) && CallerValue(d, t)
  }

  /** The three cells hold the same value, of type `t` when any. */
  predicate Agree(cv: ValueCell.Cell, ce: EntryCell.Cell, ca: AnyCell.Cell, t: GoType)
  {
    ValueCell.Valid(cv) && EntryCell.Valid(ce) && AnyCell.Valid(ca)
    && cv.data != ValueCell.EmptySentinel
    && (cv.typ == ValueCell.Unset || cv.typ == ValueCell.Tag(t))
    && (ce.typ == EntryCell.Unset || ce.typ == EntryCell.Tag(t))
    && ValueCell.Loaded(cv) == EntryCell.Current(ce) == AnyCell.Loaded(ca)
    && (EntryCell.Current(ce) == Nil || Compare(EntryCell.Current(ce), EntryCell.NilAny) != Equal)
  }

  /** One operation keeps the cells in agreement and returns the same outcome
      on all three. */
  lemma ExecAgrees(cv: ValueCell.Cell, ce: EntryCell.Cell, ca: AnyCell.Cell, op: Op, t: GoType)
    requires Agree(cv, ce, ca, t) && OfType(op, t)
    ensures ValueCell.Allowed(cv, op) && EntryCell.Allowed(ce, op)
    ensures var sv, se, sa := ValueCell.Exec(cv, op), EntryCell.Exec(ce, op), AnyCell.Exec(ca, op);
            sv.out == se.out == sa.out && Agree(sv.cell, se.cell, sa.cell, t)
  {
  }

  /** Interchangeability: from agreeing cells, a sequence of operations whose
      values are all non-nil, of one type and not `nilAny` gives the same
      outcomes on the three cells, and leaves them agreeing. */
  lemma {:induction false} SameOutcomes(cv: ValueCell.Cell, ce: EntryCell.Cell, ca: AnyCell.Cell, ops: seq<Op>, t: GoType)
    requires Agree(cv, ce, ca, t)
    requires forall i :: 0 <= i < |ops| ==> OfType(ops[i], t)
    ensures ValueCell.RunAllowed(cv, ops) && EntryCell.RunAllowed(ce, ops)
    ensures var tv, te, ta := ValueCell.Run(cv, ops), EntryCell.Run(ce, ops), AnyCell.Run(ca, ops);
            tv.outs == te.outs == ta.outs && Agree(tv.cell, te.cell, ta.cell, t)
    decreases |ops|
  {
    if ops != [] {
      ExecAgrees(cv, ce, ca, ops[0], t);
      var sv, se, sa := ValueCell.Exec(cv, ops[0]), EntryCell.Exec(ce, ops[0]), AnyCell.Exec(ca, ops[0]);
      SameOutcomes(sv.cell, se.cell, sa.cell, ops[1..], t);
    }
  }

  /** Fresh cells agree, so the three zero values are interchangeable. */
  lemma FreshInterchangeable(ops: seq<Op>, t: GoType)
    requires forall i :: 0 <= i < |ops| ==> OfType(ops[i], t)
    ensures ValueCell.RunAllowed(ValueCell.Fresh, ops) && EntryCell.RunAllowed(EntryCell.Fresh, ops)
    ensures ValueCell.Run(ValueCell.Fresh, ops).outs == EntryCell.Run(EntryCell.Fresh, ops).outs
            == AnyCell.Run(AnyCell.Fresh, ops).outs
  {
    FreshAgree(t);
    SameOutcomes(ValueCell.Fresh, EntryCell.Fresh, AnyCell.Fresh, ops, t);
  }

  /** The three zero cells agree, for any type. */
  lemma FreshAgree(t: GoType)
    ensures Agree(ValueCell.Fresh, EntryCell.Fresh, AnyCell.Fresh, t)
  {
  }
}
