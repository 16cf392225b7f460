/** The AES block cipher (examples/aes_encrypt/aes.c:610-1185): the layers on the 4x4 state,
    each with its inverse, and the rounds of section 5 of FIPS 197 over an arbitrary key
    schedule. Values first, then the same in place. */
module Aes {
  import opened AesTables

  const BLOCK := 16

  /** One column of the state, from row 0 to row 3. */
  datatype Column = Column(b0: bv8, b1: bv8, b2: bv8, b3: bv8)

  datatype State = State(c0: Column, c1: Column, c2: Column, c3: Column)

  type Schedule = k: seq<bv32> | |k| == 60 witness seq(60, _ => 0)

  // ----- layers

  function KeyColumn(w: bv32): Column {
    Column(((w >> 24) & 0xFF) as bv8, ((w >> 16) & 0xFF) as bv8, ((w >> 8) & 0xFF) as bv8, (w & 0xFF) as bv8)
  }

  function AddColumn(c: Column, k: Column): Column {
    Column(c.b0 ^ k.b0, c.b1 ^ k.b1, c.b2 ^ k.b2, c.b3 ^ k.b3)
  }

  /** Adds the round key that starts at word i. */
  function AddRoundKey(s: State, k: Schedule, i: nat): State
    requires i + 4 <= 60
  {
    State(AddColumn(s.c0, KeyColumn(k[i])), AddColumn(s.c1, KeyColumn(k[i + 1])),
          AddColumn(s.c2, KeyColumn(k[i + 2])), AddColumn(s.c3, KeyColumn(k[i + 3])))
  }

  function SubColumn(c: Column): Column { Column(Sbox(c.b0), Sbox(c.b1), Sbox(c.b2), Sbox(c.b3)) }

  function SubBytes(s: State): State { State(SubColumn(s.c0), SubColumn(s.c1), SubColumn(s.c2), SubColumn(s.c3)) }

  function InvSubColumn(c: Column): Column { Column(InvSbox(c.b0), InvSbox(c.b1), InvSbox(c.b2), InvSbox(c.b3)) }

  function InvSubBytes(s: State): State {
    State(InvSubColumn(s.c0), InvSubColumn(s.c1), InvSubColumn(s.c2), InvSubColumn(s.c3))
  }

  /** Row r moves r places to the left. */
  function ShiftRows(s: State): State {
    State(Column(s.c0.b0, s.c1.b1, s.c2.b2, s.c3.b3), Column(s.c1.b0, s.c2.b1, s.c3.b2, s.c0.b3),
          Column(s.c2.b0, s.c3.b1, s.c0.b2, s.c1.b3), Column(s.c3.b0, s.c0.b1, s.c1.b2, s.c2.b3))
  }

  function InvShiftRows(s: State): State {
    State(Column(s.c0.b0, s.c3.b1, s.c2.b2, s.c1.b3), Column(s.c1.b0, s.c0.b1, s.c3.b2, s.c2.b3),
          Column(s.c2.b0, s.c1.b1, s.c0.b2, s.c3.b3), Column(s.c3.b0, s.c2.b1, s.c1.b2, s.c0.b3))
  }

  function MixColumn(c: Column): Column {
    Column(Sum(TimesTwo(c.b0), TimesThree(c.b1), c.b2, c.b3), Sum(c.b0, TimesTwo(c.b1), TimesThree(c.b2), c.b3),
           Sum(c.b0, c.b1, TimesTwo(c.b2), TimesThree(c.b3)), Sum(TimesThree(c.b0), c.b1, c.b2, TimesTwo(c.b3)))
  }

  function MixColumns(s: State): State { State(MixColumn(s.c0), MixColumn(s.c1), MixColumn(s.c2), MixColumn(s.c3)) }

  function InvMixColumn(c: Column): Column {
    Column(Sum(TimesFourteen(c.b0), TimesEleven(c.b1), TimesThirteen(c.b2), TimesNine(c.b3)),
           Sum(TimesNine(c.b0), TimesFourteen(c.b1), TimesEleven(c.b2), TimesThirteen(c.b3)),
           Sum(TimesThirteen(c.b0), TimesNine(c.b1), TimesFourteen(c.b2), TimesEleven(c.b3)),
           Sum(TimesEleven(c.b0), TimesThirteen(c.b1), TimesNine(c.b2), TimesFourteen(c.b3)))
  }

  function InvMixColumns(s: State): State {
    State(InvMixColumn(s.c0), InvMixColumn(s.c1), InvMixColumn(s.c2), InvMixColumn(s.c3))
  }

  // ----- each layer undone

  lemma AddColumnTwice(c: Column, k: Column)
    ensures AddColumn(AddColumn(c, k), k) == c
  {}

  lemma AddRoundKeyTwice(s: State, k: Schedule, i: nat)
    requires i + 4 <= 60
    ensures AddRoundKey(AddRoundKey(s, k, i), k, i) == s
  {
    hide AddColumn, KeyColumn;
    AddColumnTwice(s.c0, KeyColumn(k[i]));
    AddColumnTwice(s.c1, KeyColumn(k[i + 1]));
    AddColumnTwice(s.c2, KeyColumn(k[i + 2]));
    AddColumnTwice(s.c3, KeyColumn(k[i + 3]));
  }

  lemma SubColumnUndone(c: Column)
    ensures InvSubColumn(SubColumn(c)) == c
  {
    hide Sbox, InvSbox;
    SboxInverse(c.b0);
    SboxInverse(c.b1);
    SboxInverse(c.b2);
    SboxInverse(c.b3);
  }

  /** InvShiftRows and InvSubBytes undo SubBytes and ShiftRows. */
  lemma SubShiftUndone(s: State)
    ensures InvSubBytes(InvShiftRows(ShiftRows(SubBytes(s)))) == s
  {
    hide SubColumn, InvSubColumn;
    SubColumnUndone(s.c0);
    SubColumnUndone(s.c1);
    SubColumnUndone(s.c2);
    SubColumnUndone(s.c3);
    assert InvShiftRows(ShiftRows(SubBytes(s))) == SubBytes(s);
  }

  // Multiplication by the coefficients of the inverse matrix, as sums of powers of x.

  function Nine(x: bv8): bv8 { Plus(X8(x), x) }

  function Eleven(x: bv8): bv8 { Plus(X8(x), Plus(Xtime(x), x)) }

  function Thirteen(x: bv8): bv8 { Plus(X8(x), Plus(X4(x), x)) }

  function Fourteen(x: bv8): bv8 { Plus(X8(x), Plus(X4(x), Xtime(x))) }

  function Three(x: bv8): bv8 { Plus(Xtime(x), x) }

  /** Sums may be regrouped. */
  lemma Regroup(a: bv8, b: bv8, c: bv8, d: bv8)
    ensures Plus(Plus(a, b), Plus(c, d)) == Plus(Plus(a, c), Plus(b, d))
  {
    assert (a ^ b) ^ (c ^ d) == (a ^ c) ^ (b ^ d);
  }

  lemma MultiplesLinear(a: bv8, b: bv8)
    ensures Nine(Plus(a, b)) == Plus(Nine(a), Nine(b)) && Eleven(Plus(a, b)) == Plus(Eleven(a), Eleven(b))
    ensures Thirteen(Plus(a, b)) == Plus(Thirteen(a), Thirteen(b))
    ensures Fourteen(Plus(a, b)) == Plus(Fourteen(a), Fourteen(b))
  {
    hide Plus, Xtime, X4, X8;
    PowersLinear(a, b);
    Regroup(X8(a), X8(b), a, b);
    Regroup(Xtime(a), Xtime(b), a, b);
    Regroup(X8(a), X8(b), Plus(Xtime(a), a), Plus(Xtime(b), b));
    Regroup(X4(a), X4(b), a, b);
    Regroup(X8(a), X8(b), Plus(X4(a), a), Plus(X4(b), b));
    Regroup(X4(a), X4(b), Xtime(a), Xtime(b));
    Regroup(X8(a), X8(b), Plus(X4(a), Xtime(a)), Plus(X4(b), Xtime(b)));
  }

  /** Which of the powers x^4 to x^0 times a byte a sum contains. */
  datatype Mask = Mask(m4: bool, m3: bool, m2: bool, m1: bool, m0: bool)

  function Both(m: Mask, n: Mask): Mask {
    Mask(m.m4 != n.m4, m.m3 != n.m3, m.m2 != n.m2, m.m1 != n.m1, m.m0 != n.m0)
  }

  function If(m: bool, v: bv8): bv8 { if m then v else 0 }

  function Combine(m: Mask, x: bv8): bv8 {
    Plus(If(m.m4, Xtime(X8(x))), Plus(If(m.m3, X8(x)), Low(m, x)))
  }

  function Low(m: Mask, x: bv8): bv8 { Plus(If(m.m2, X4(x)), Lowest(m, x)) }

  function Lowest(m: Mask, x: bv8): bv8 { Plus(If(m.m1, Xtime(x)), Itself(m, x)) }

  function Itself(m: Mask, x: bv8): bv8 { If(m.m0, x) }

  /** One more summand on each side. */
  lemma PlusOneMore(m: bool, n: bool, v: bv8, a: bv8, b: bv8)
    ensures Plus(Plus(If(m, v), a), Plus(If(n, v), b)) == Plus(If(m != n, v), Plus(a, b))
  {
    hide Plus, If;
    Regroup(If(m, v), a, If(n, v), b);
    IfPlus(m, n, v);
  }

  lemma IfPlus(m: bool, n: bool, v: bv8)
    ensures Plus(If(m, v), If(n, v)) == If(m != n, v)
  {}

  /** Equal powers cancel in a sum of combinations. */
  lemma CombinePlus(m: Mask, n: Mask, x: bv8)
    ensures Plus(Combine(m, x), Combine(n, x)) == Combine(Both(m, n), x)
  {
    hide Plus, If, Xtime, X4, X8, Low;
    var a, b := Plus(If(m.m3, X8(x)), Low(m, x)), Plus(If(n.m3, X8(x)), Low(n, x));
    PlusOneMore(m.m4, n.m4, Xtime(X8(x)), a, b);
    PlusOneMore(m.m3, n.m3, X8(x), Low(m, x), Low(n, x));
    LowPlus(m, n, x);
  }

  lemma LowPlus(m: Mask, n: Mask, x: bv8)
    ensures Plus(Low(m, x), Low(n, x)) == Low(Both(m, n), x)
  {
    hide Plus, If, Xtime, X4, X8, Lowest;
    PlusOneMore(m.m2, n.m2, X4(x), Lowest(m, x), Lowest(n, x));
    LowestPlus(m, n, x);
  }

  lemma LowestPlus(m: Mask, n: Mask, x: bv8)
    ensures Plus(Lowest(m, x), Lowest(n, x)) == Lowest(Both(m, n), x)
  {
    hide Plus, If, Xtime, X4, X8, Itself;
    PlusOneMore(m.m1, n.m1, Xtime(x), Itself(m, x), Itself(n, x));
    ItselfPlus(m, n, x);
  }

  lemma ItselfPlus(m: Mask, n: Mask, x: bv8)
    ensures Plus(Itself(m, x), Itself(n, x)) == Itself(Both(m, n), x)
  {
    hide Plus, If;
    IfPlus(m.m0, n.m0, x);
  }

  lemma PlusZero(a: bv8)
    ensures Plus(0, a) == a && Plus(a, 0) == a
  {}

  /** The multiples as combinations. */
  lemma MultiplesCombine(x: bv8)
    ensures Nine(x) == Combine(Mask(false, true, false, false, true), x)
    ensures Eleven(x) == Combine(Mask(false, true, false, true, true), x)
    ensures Thirteen(x) == Combine(Mask(false, true, true, false, true), x)
    ensures Fourteen(x) == Combine(Mask(false, true, true, true, false), x)
  {
    hide Plus, Xtime, X4, X8;
    forall a: bv8 ensures Plus(0, a) == a && Plus(a, 0) == a { PlusZero(a); }
  }

  lemma DoublesCombine(x: bv8)
    ensures Nine(Xtime(x)) == Combine(Mask(true, false, false, true, false), x)
    ensures Eleven(Xtime(x)) == Combine(Mask(true, false, true, true, false), x)
    ensures Thirteen(Xtime(x)) == Combine(Mask(true, true, false, true, false), x)
    ensures Fourteen(Xtime(x)) == Combine(Mask(true, true, true, false, false), x)
  {
    hide Plus, Xtime;
    forall a: bv8 ensures Plus(0, a) == a && Plus(a, 0) == a { PlusZero(a); }
    assert X4(Xtime(x)) == X8(x) && X8(Xtime(x)) == Xtime(X8(x)) && Xtime(Xtime(x)) == X4(x);
    hide X4, X8;
  }

  lemma TriplesCombine(x: bv8)
    ensures Nine(Three(x)) == Combine(Mask(true, true, false, true, true), x)
    ensures Eleven(Three(x)) == Combine(Mask(true, true, true, false, true), x)
    ensures Thirteen(Three(x)) == Combine(Mask(true, false, true, true, true), x)
    ensures Fourteen(Three(x)) == Combine(Mask(true, false, false, true, false), x)
  {
    hide Plus, Xtime, X4, X8, Nine, Eleven, Thirteen, Fourteen, Combine;
    MultiplesLinear(Xtime(x), x);
    MultiplesCombine(x);
    DoublesCombine(x);
    CombinePlus(Mask(true, false, false, true, false), Mask(false, true, false, false, true), x);
    CombinePlus(Mask(true, false, true, true, false), Mask(false, true, false, true, true), x);
    CombinePlus(Mask(true, true, false, true, false), Mask(false, true, true, false, true), x);
    CombinePlus(Mask(true, true, true, false, false), Mask(false, true, true, true, false), x);
  }

  lemma CombineSum(k: Mask, l: Mask, m: Mask, n: Mask, x: bv8)
    ensures Sum(Combine(k, x), Combine(l, x), Combine(m, x), Combine(n, x)) == Combine(Both(Both(k, l), Both(m, n)), x)
  {
    hide Plus, Combine;
    CombinePlus(k, l, x);
    CombinePlus(m, n, x);
    CombinePlus(Both(k, l), Both(m, n), x);
  }

  lemma CombineTrivial(x: bv8)
    ensures Combine(Mask(false, false, false, false, true), x) == x
    ensures Combine(Mask(false, false, false, false, false), x) == 0
  {
    hide Plus, Xtime, X4, X8;
    PlusZero(x);
    PlusZero(0);
  }

  /** What a byte contributes to the four sums of the inverse matrix: itself to its own,
      nothing to the others. */
  lemma Contributions(x: bv8)
    ensures Sum(Fourteen(Xtime(x)), Eleven(x), Thirteen(x), Nine(Three(x))) == x
    ensures Sum(Fourteen(Three(x)), Eleven(Xtime(x)), Thirteen(x), Nine(x)) == 0
    ensures Sum(Fourteen(x), Eleven(Three(x)), Thirteen(Xtime(x)), Nine(x)) == 0
    ensures Sum(Fourteen(x), Eleven(x), Thirteen(Three(x)), Nine(Xtime(x))) == 0
  {
    hide Xtime, X4, X8, Plus, Nine, Eleven, Thirteen, Fourteen, Sum, Three, Combine;
    MultiplesCombine(x);
    DoublesCombine(x);
    TriplesCombine(x);
    CombineTrivial(x);
    CombineSum(Mask(true, true, true, false, false), Mask(false, true, false, true, true),
               Mask(false, true, true, false, true), Mask(true, true, false, true, true), x);
    CombineSum(Mask(true, false, false, true, false), Mask(true, false, true, true, false),
               Mask(false, true, true, false, true), Mask(false, true, false, false, true), x);
    CombineSum(Mask(false, true, true, true, false), Mask(true, true, true, false, true),
               Mask(true, true, false, true, false), Mask(false, true, false, false, true), x);
    CombineSum(Mask(false, true, true, true, false), Mask(false, true, false, true, true),
               Mask(true, false, true, true, true), Mask(true, false, false, true, false), x);
  }

  /** The multiples of a sum of four. */
  lemma MultiplesOfSum(a: bv8, b: bv8, c: bv8, d: bv8)
    ensures Nine(Sum(a, b, c, d)) == Sum(Nine(a), Nine(b), Nine(c), Nine(d))
    ensures Eleven(Sum(a, b, c, d)) == Sum(Eleven(a), Eleven(b), Eleven(c), Eleven(d))
    ensures Thirteen(Sum(a, b, c, d)) == Sum(Thirteen(a), Thirteen(b), Thirteen(c), Thirteen(d))
    ensures Fourteen(Sum(a, b, c, d)) == Sum(Fourteen(a), Fourteen(b), Fourteen(c), Fourteen(d))
  {
    hide Plus, Nine, Eleven, Thirteen, Fourteen;
    MultiplesLinear(a, b);
    MultiplesLinear(c, d);
    MultiplesLinear(Plus(a, b), Plus(c, d));
  }

  lemma SumPlus(a1: bv8, b1: bv8, c1: bv8, d1: bv8, a2: bv8, b2: bv8, c2: bv8, d2: bv8)
    ensures
      Plus(Sum(a1, b1, c1, d1), Sum(a2, b2, c2, d2))
      == Sum(Plus(a1, a2), Plus(b1, b2), Plus(c1, c2), Plus(d1, d2))
  {
    hide Plus;
    Regroup(Plus(a1, b1), Plus(c1, d1), Plus(a2, b2), Plus(c2, d2));
    Regroup(a1, b1, a2, b2);
    Regroup(c1, d1, c2, d2);
  }

  lemma SumRotates(a: bv8, b: bv8, c: bv8, d: bv8)
    ensures Sum(b, c, d, a) == Sum(a, b, c, d)
  {
    hide Plus;
    PlusCommutes(d, a);
    Regroup(b, c, a, d);
    PlusCommutes(a, b);
  }

  lemma PlusCommutes(a: bv8, b: bv8)
    ensures Plus(a, b) == Plus(b, a)
  {}

  /** Sixteen terms added row by row or column by column. */
  lemma Transpose(a1: bv8, b1: bv8, c1: bv8, d1: bv8, a2: bv8, b2: bv8, c2: bv8, d2: bv8,
                  a3: bv8, b3: bv8, c3: bv8, d3: bv8, a4: bv8, b4: bv8, c4: bv8, d4: bv8)
    ensures Sum(Sum(a1, b1, c1, d1), Sum(b2, c2, d2, a2), Sum(c3, d3, a3, b3), Sum(d4, a4, b4, c4))
         == Sum(Sum(a1, a2, a3, a4), Sum(b1, b2, b3, b4), Sum(c1, c2, c3, c4), Sum(d1, d2, d3, d4))
  {
    hide Plus;
    SumRotates(a2, b2, c2, d2);
    SumRotates(b3, c3, d3, a3);
    SumRotates(a3, b3, c3, d3);
    SumRotates(d4, a4, b4, c4);
    SumPlus(a1, b1, c1, d1, a2, b2, c2, d2);
    SumPlus(a3, b3, c3, d3, a4, b4, c4, d4);
    SumPlus(Plus(a1, a2), Plus(b1, b2), Plus(c1, c2), Plus(d1, d2), Plus(a3, a4), Plus(b3, b4), Plus(c3, c4),
            Plus(d3, d4));
  }

  lemma PlusZeros(r: bv8)
    ensures Sum(r, 0, 0, 0) == r
  {}

  /** A row of the product of the two matrices, applied to a column that starts at a. */
  lemma RowUndone(a: bv8, b: bv8, c: bv8, d: bv8)
    ensures Sum(Fourteen(Sum(Xtime(a), Three(b), c, d)), Eleven(Sum(Xtime(b), Three(c), d, a)),
                Thirteen(Sum(Xtime(c), Three(d), a, b)), Nine(Sum(Xtime(d), Three(a), b, c))) == a
  {
    hide Xtime, X4, X8, Plus, Nine, Eleven, Thirteen, Fourteen, Sum, Three;
    MultiplesOfSum(Xtime(a), Three(b), c, d);
    MultiplesOfSum(Xtime(b), Three(c), d, a);
    MultiplesOfSum(Xtime(c), Three(d), a, b);
    MultiplesOfSum(Xtime(d), Three(a), b, c);
    Contributions(a);
    Contributions(b);
    Contributions(c);
    Contributions(d);
    Transpose(Fourteen(Xtime(a)), Fourteen(Three(b)), Fourteen(c), Fourteen(d),
              Eleven(a), Eleven(Xtime(b)), Eleven(Three(c)), Eleven(d),
              Thirteen(a), Thirteen(b), Thirteen(Xtime(c)), Thirteen(Three(d)),
              Nine(Three(a)), Nine(b), Nine(c), Nine(Xtime(d)));
    PlusZeros(a);
  }

  lemma TablesMultiply(x: bv8)
    ensures TimesTwo(x) == Xtime(x) && TimesThree(x) == Three(x) && TimesNine(x) == Nine(x)
    ensures TimesEleven(x) == Eleven(x) && TimesThirteen(x) == Thirteen(x) && TimesFourteen(x) == Fourteen(x)
  {
    hide TimesTwo, TimesThree, TimesNine, TimesEleven, TimesThirteen, TimesFourteen, Xtime, X4, X8, Plus;
    TimesTwoIs(x);
    TimesThreeIs(x);
    TimesNineIs(x);
    TimesElevenIs(x);
    TimesThirteenIs(x);
    TimesFourteenIs(x);
  }

  /** The four bytes of a mixed column, each as the same sum turned one place further. */
  lemma Mixed(c: Column)
    ensures
      var m := MixColumn(c);
      m.b0 == Sum(Xtime(c.b0), Three(c.b1), c.b2, c.b3) && m.b1 == Sum(Xtime(c.b1), Three(c.b2), c.b3, c.b0)
    ensures
      var m := MixColumn(c);
      m.b2 == Sum(Xtime(c.b2), Three(c.b3), c.b0, c.b1) && m.b3 == Sum(Xtime(c.b3), Three(c.b0), c.b1, c.b2)
  {
    hide TimesTwo, TimesThree, Xtime, Three, Sum;
    TablesMultiply(c.b0);
    TablesMultiply(c.b1);
    TablesMultiply(c.b2);
    TablesMultiply(c.b3);
    SumRotates(c.b0, Xtime(c.b1), Three(c.b2), c.b3);
    SumRotates(c.b0, c.b1, Xtime(c.b2), Three(c.b3));
    SumRotates(c.b1, Xtime(c.b2), Three(c.b3), c.b0);
    SumRotates(Xtime(c.b3), Three(c.b0), c.b1, c.b2);
  }

  /** The same for the inverse. */
  lemma Unmixed(m: Column)
    ensures
      var c := InvMixColumn(m);
      && c.b0 == Sum(Fourteen(m.b0), Eleven(m.b1), Thirteen(m.b2), Nine(m.b3))
      && c.b1 == Sum(Fourteen(m.b1), Eleven(m.b2), Thirteen(m.b3), Nine(m.b0))
    ensures
      var c := InvMixColumn(m);
      && c.b2 == Sum(Fourteen(m.b2), Eleven(m.b3), Thirteen(m.b0), Nine(m.b1))
      && c.b3 == Sum(Fourteen(m.b3), Eleven(m.b0), Thirteen(m.b1), Nine(m.b2))
  {
    hide TimesNine, TimesEleven, TimesThirteen, TimesFourteen, Nine, Eleven, Thirteen, Fourteen, Sum;
    TablesMultiply(m.b0);
    TablesMultiply(m.b1);
    TablesMultiply(m.b2);
    TablesMultiply(m.b3);
    SumRotates(Nine(m.b0), Fourteen(m.b1), Eleven(m.b2), Thirteen(m.b3));
    SumRotates(Thirteen(m.b0), Nine(m.b1), Fourteen(m.b2), Eleven(m.b3));
    SumRotates(Nine(m.b1), Fourteen(m.b2), Eleven(m.b3), Thirteen(m.b0));
    SumRotates(Fourteen(m.b3), Eleven(m.b0), Thirteen(m.b1), Nine(m.b2));
  }

  lemma MixColumnUndone(c: Column)
    ensures InvMixColumn(MixColumn(c)) == c
  {
    hide MixColumn, InvMixColumn, Nine, Eleven, Thirteen, Fourteen, Sum, Xtime, Three;
    Mixed(c);
    Unmixed(MixColumn(c));
    RowUndone(c.b0, c.b1, c.b2, c.b3);
    RowUndone(c.b1, c.b2, c.b3, c.b0);
    RowUndone(c.b2, c.b3, c.b0, c.b1);
    RowUndone(c.b3, c.b0, c.b1, c.b2);
  }

  lemma MixColumnsUndone(s: State)
    ensures InvMixColumns(MixColumns(s)) == s
  {
    hide MixColumn, InvMixColumn;
    MixColumnUndone(s.c0);
    MixColumnUndone(s.c1);
    MixColumnUndone(s.c2);
    MixColumnUndone(s.c3);
  }

  // ----- rounds

  /** The state before round r: the first key, then the full rounds 1 to r - 1. */
  function Forward(s: State, k: Schedule, r: nat): State
    requires 1 <= r <= 14
  {
    if r == 1 then AddRoundKey(s, k, 0)
    else AddRoundKey(MixColumns(ShiftRows(SubBytes(Forward(s, k, r - 1)))), k, 4 * (r - 1))
  }

  /** The cipher of section 5.1 of FIPS 197 with `rounds` rounds. */
  function Cipher(s: State, k: Schedule, rounds: nat): State
    requires 1 <= rounds <= 14
  {
    AddRoundKey(ShiftRows(SubBytes(Forward(s, k, rounds))), k, 4 * rounds)
  }

  /** The full inverse rounds r down to 1. */
  function Backward(s: State, k: Schedule, r: nat): State
    requires r <= 13
    decreases r
  {
    if r == 0 then s
    else Backward(InvMixColumns(AddRoundKey(InvSubBytes(InvShiftRows(s)), k, 4 * r)), k, r - 1)
  }

  /** The inverse cipher of section 5.3 of FIPS 197. */
  function InvCipher(s: State, k: Schedule, rounds: nat): State
    requires 1 <= rounds <= 14
  {
    AddRoundKey(InvSubBytes(InvShiftRows(Backward(AddRoundKey(s, k, 4 * rounds), k, rounds - 1))), k, 0)
  }

  lemma {:induction false} BackwardUndoes(s: State, k: Schedule, r: nat)
    requires r <= 13
    ensures Backward(ShiftRows(SubBytes(Forward(s, k, r + 1))), k, r) == ShiftRows(SubBytes(Forward(s, k, 1)))
  {
    hide AddRoundKey, ShiftRows, SubBytes, MixColumns, InvShiftRows, InvSubBytes, InvMixColumns;
    if r > 0 {
      SubShiftUndone(Forward(s, k, r + 1));
      var m := MixColumns(ShiftRows(SubBytes(Forward(s, k, r))));
      AddRoundKeyTwice(m, k, 4 * r);
      MixColumnsUndone(ShiftRows(SubBytes(Forward(s, k, r))));
      BackwardUndoes(s, k, r - 1);
    }
  }

  /** Decryption inverts encryption, for every block, schedule and number of rounds. */
  lemma CipherUndone(s: State, k: Schedule, rounds: nat)
    requires 1 <= rounds <= 14
    ensures InvCipher(Cipher(s, k, rounds), k, rounds) == s
  {
    hide AddRoundKey, ShiftRows, SubBytes, MixColumns, InvShiftRows, InvSubBytes, InvMixColumns, Backward;
    var last := ShiftRows(SubBytes(Forward(s, k, rounds)));
    AddRoundKeyTwice(last, k, 4 * rounds);
    BackwardUndoes(s, k, rounds - 1);
    SubShiftUndone(Forward(s, k, 1));
    AddRoundKeyTwice(s, k, 0);
  }

  // ----- blocks

  type Block = b: seq<bv8> | |b| == 16 witness seq(16, _ => 0)

  /** Sequential bytes go down the columns. */
  function Load(b: Block): State {
    State(Column(b[0], b[1], b[2], b[3]), Column(b[4], b[5], b[6], b[7]),
          Column(b[8], b[9], b[10], b[11]), Column(b[12], b[13], b[14], b[15]))
  }

  function Unload(s: State): Block {
    [s.c0.b0, s.c0.b1, s.c0.b2, s.c0.b3, s.c1.b0, s.c1.b1, s.c1.b2, s.c1.b3,
     s.c2.b0, s.c2.b1, s.c2.b2, s.c2.b3, s.c3.b0, s.c3.b1, s.c3.b2, s.c3.b3]
  }

  /** The rounds aes_encrypt makes, and those aes_decrypt makes, for a key size in bits. */
  function EncryptRounds(keysize: int): nat { if keysize != 128 then (if keysize != 192 then 14 else 12) else 10 }

  function DecryptRounds(keysize: int): nat { if keysize > 128 then (if keysize > 192 then 14 else 12) else 10 }

  function Encrypt(b: Block, k: Schedule, keysize: int): Block { Unload(Cipher(Load(b), k, EncryptRounds(keysize))) }

  function Decrypt(b: Block, k: Schedule, keysize: int): Block { Unload(InvCipher(Load(b), k, DecryptRounds(keysize))) }

  /** The sizes that both sides read alike; 128, 192 and 256 are among them. */
  predicate KeySize(keysize: int) { keysize == 128 || keysize >= 192 }

  lemma LoadUnload(b: Block, s: State)
    ensures Unload(Load(b)) == b && Load(Unload(s)) == s
  {}

  /** aes_decrypt inverts aes_encrypt for every block, every key schedule and all key sizes. */
  lemma DecryptInverts(b: Block, k: Schedule, keysize: int)
    requires KeySize(keysize)
    ensures Decrypt(Encrypt(b, k, keysize), k, keysize) == b
  {
    hide Load, Unload, Cipher, InvCipher;
    var s := Load(b);
    var c := Cipher(s, k, EncryptRounds(keysize));
    LoadUnload(b, c);
    CipherUndone(s, k, EncryptRounds(keysize));
  }

  /** Exactly those sizes make both sides go through the same number of rounds. */
  lemma RoundsAgreeIff(keysize: int)
    ensures EncryptRounds(keysize) == DecryptRounds(keysize) <==> KeySize(keysize)
  {}
}
