/** How the dish actions read ingredient rows out of submitted form data:
    keys of the form `ingredients[<digits>].<field>` are collected into rows
    by index, in order of first appearance, and only rows with a positive
    ingredient id and a positive quantity are sent. */
module IngredientForm {
  import opened Wrappers
  import opened Strings
  import opened Seqs
  import opened Domain

  datatype Field = IngredientIdField | QuantityField | UnitField

  function FieldName(f: Field): string {
    match f
    case IngredientIdField => "ingredientId"
    case QuantityField => "quantity"
    case UnitField => "unit"
  }

  const PREFIX: string := "ingredients["

  /** The unit a row starts with, and the one an empty unit is sent as. */
  const GRAM: string := "г"

  // ----- Matching a key -----

  predicate AllDigits(d: string) {
    forall i :: 0 <= i < |d| ==> IsDigit(d[i])
  }

  /** Length of the run of digits `s` starts with. */
  function DigitRun(s: string): (j: nat)
    ensures j <= |s| && AllDigits(s[..j])
    ensures j < |s| ==> !IsDigit(s[j])
    decreases |s|
  {
    if s == [] || !IsDigit(s[0]) then 0
    else
      var j := 1 + DigitRun(s[1..]);
      assert forall i :: 1 <= i < j ==> s[..j][i] == s[1..][..j - 1][i - 1];
      j
  }

  /** `Number(d)` for a string of decimal digits. */
  function DigitsValue(d: string): nat
    requires AllDigits(d)
    decreases |d|
  {
    if d == [] then 0 else DigitsValue(d[..|d| - 1]) * 10 + DigitValue(d[|d| - 1])
  }

  /** The text after the digits: `].` and a field name, and nothing else. */
  function FieldOf(tail: string): (r: Option<Field>)
    ensures r.Some? ==> tail == "]." + FieldName(r.value)
    ensures forall f: Field :: tail == "]." + FieldName(f) ==> r == Some(f)
  {
    if tail == "].ingredientId" then Some(IngredientIdField)
    else if tail == "].quantity" then Some(QuantityField)
    else if tail == "].unit" then Some(UnitField)
    else None
  }

  /** `key.match(/^ingredients\[(\d+)\]\.(ingredientId|quantity|unit)$/)`:
      the row index (the digits read as a number) and the field. */
  function MatchKey(key: string): Option<(nat, Field)> {
    if !StartsWith(key, PREFIX) then None
    else
      var rest := key[|PREFIX|..];
      var j := DigitRun(rest);
      if j == 0 then None
      else match FieldOf(rest[j..])
        case None => None
        case Some(f) => Some((DigitsValue(rest[..j]), f))
  }

  /** The key the dish form gives field `f` of row `n`. */
  function Key(n: nat, f: Field): string {
    PREFIX + NatToString(n) + "]." + FieldName(f)
  }

  /** A key of the accepted shape, with digits `d`. */
  predicate KeyShape(key: string, d: string, f: Field) {
    |d| >= 1 && AllDigits(d) && key == PREFIX + d + "]." + FieldName(f)
  }

  lemma {:induction false} DigitRunOfDigits(d: string, s: string)
    requires AllDigits(d) && (s == [] || !IsDigit(s[0]))
    ensures DigitRun(d + s) == |d|
    decreases |d|
  {
    if d != [] {
      assert (d + s)[1..] == d[1..] + s;
      DigitRunOfDigits(d[1..], s);
    } else {
      assert d + s == s;
    }
  }

  /** The matcher on a key whose rest after the prefix is digits `d`
      followed by `tail`. */
  lemma MatchSplit(key: string, d: string, tail: string)
    requires StartsWith(key, PREFIX) && key[|PREFIX|..] == d + tail
    requires |d| >= 1 && AllDigits(d) && (tail == [] || !IsDigit(tail[0]))
    ensures MatchKey(key) == (match FieldOf(tail) case None => None case Some(f) => Some((DigitsValue(d), f)))
  {
    var rest := key[|PREFIX|..];
    DigitRunOfDigits(d, tail);
    assert rest[..|d|] == d;
    assert rest[|d|..] == tail;
  }

  lemma MatchShape(key: string, d: string, f: Field)
    requires KeyShape(key, d, f)
    ensures MatchKey(key) == Some((DigitsValue(d), f))
  {
    var tail := "]." + FieldName(f);
    assert key == PREFIX + (d + tail);
    assert key[..|PREFIX|] == PREFIX;
    assert tail[0] == ']';
    MatchSplit(key, d, tail);
  }

  /** What an accepted key consists of. */
  lemma MatchParts(key: string)
    requires MatchKey(key).Some?
    ensures var rest := key[|PREFIX|..];
      var j := DigitRun(rest);
      StartsWith(key, PREFIX) && j >= 1 && FieldOf(rest[j..]) == Some(MatchKey(key).value.1) &&
      MatchKey(key).value.0 == DigitsValue(rest[..j])
  {
  }

  lemma Reassemble(key: string, d: string, name: string)
    requires |PREFIX| <= |key| && key[..|PREFIX|] == PREFIX
    requires key[|PREFIX|..] == d + ("]." + name)
    ensures key == PREFIX + d + "]." + name
  {
    assert key == key[..|PREFIX|] + key[|PREFIX|..];
  }

  /** The digits an accepted key carries after the prefix. */
  function MatchedDigits(key: string): string
    requires |PREFIX| <= |key|
  {
    key[|PREFIX|..][..DigitRun(key[|PREFIX|..])]
  }

  lemma MatchedKeyRebuilt(key: string)
    requires MatchKey(key).Some?
    ensures |PREFIX| <= |key| && key == PREFIX + MatchedDigits(key) + "]." + FieldName(MatchKey(key).value.1)
  {
    MatchParts(key);
    var rest := key[|PREFIX|..];
    var j := DigitRun(rest);
    assert rest == rest[..j] + rest[j..];
    Reassemble(key, rest[..j], FieldName(MatchKey(key).value.1));
  }

  lemma MatchOnlyShape(key: string)
    requires MatchKey(key).Some?
    ensures |PREFIX| <= |key|
    ensures KeyShape(key, MatchedDigits(key), MatchKey(key).value.1)
    ensures MatchKey(key).value.0 == DigitsValue(MatchedDigits(key))
  {
    MatchParts(key);
    MatchedKeyRebuilt(key);
  }

  /** The matcher accepts exactly the keys of the accepted shape and reads
      their digits as the row index. */
  lemma MatchKeyExactly(key: string, d: string, f: Field)
    ensures KeyShape(key, d, f) ==> MatchKey(key) == Some((DigitsValue(d), f))
    ensures MatchKey(key).Some? ==>
      |PREFIX| <= |key| && KeyShape(key, MatchedDigits(key), MatchKey(key).value.1) &&
      MatchKey(key).value.0 == DigitsValue(MatchedDigits(key))
  {
    if KeyShape(key, d, f) {
      MatchShape(key, d, f);
    }
    if MatchKey(key).Some? {
      MatchOnlyShape(key);
    }
  }

  lemma {:induction false} DigitsValueOfNatToString(n: nat)
    ensures AllDigits(NatToString(n)) && DigitsValue(NatToString(n)) == n
    decreases n
  {
    var s := NatToString(n);
    if n >= 10 {
      DigitsValueOfNatToString(n / 10);
      assert s[..|s| - 1] == NatToString(n / 10);
    }
  }

  /** Round trip: the key the dish form writes for row `n` and field `f` is
      read back as row `n`, field `f`. */
  lemma KeyRoundTrip(n: nat, f: Field)
    ensures MatchKey(Key(n, f)) == Some((n, f))
  {
    DigitsValueOfNatToString(n);
    assert Key(n, f) == PREFIX + NatToString(n) + "]." + FieldName(f);
    MatchKeyExactly(Key(n, f), NatToString(n), f);
  }

  // ----- Collecting rows -----

  /** A row as collected: the numbers are `Number(value)`, so possibly
      `NaN`. */
  datatype Row = Row(ingredientId: Num, quantity: Num, unit: string)

  const DEFAULT_ROW: Row := Row(Finite(0.0), Finite(0.0), GRAM)

  /** The `Map` of rows: its keys in insertion order, and the rows. */
  datatype Table = Table(order: seq<nat>, rows: map<nat, Row>)

  const EMPTY: Table := Table([], map[])

  function SetField(r: Row, f: Field, value: string, toNumber: string -> Num): Row {
    match f
    case IngredientIdField => r.(ingredientId := toNumber(value))
    case QuantityField => r.(quantity := toNumber(value))
    case UnitField => r.(unit := value)
  }

  /** One form entry: a matching key creates its row with the defaults if
      needed, then sets the field; any other key is ignored. */
  function Absorb(t: Table, entry: (string, string), toNumber: string -> Num): Table {
    match MatchKey(entry.0)
    case None => t
    case Some((n, f)) =>
      var t1 := if n in t.rows then t else Table(t.order + [n], t.rows[n := DEFAULT_ROW]);
      t1.(rows := t1.rows[n := SetField(t1.rows[n], f, entry.1, toNumber)])
  }

  /** The table after the first `forEach` over all entries. */
  function Collect(entries: seq<(string, string)>, toNumber: string -> Num): Table
    decreases |entries|
  {
    if entries == [] then EMPTY
    else Absorb(Collect(entries[..|entries| - 1], toNumber), entries[|entries| - 1], toNumber)
  }

  /** What is sent for one row. */
  datatype IngredientInput = IngredientInput(ingredientId: real, quantity: real, unit: string)

  predicate Keep(r: Row) {
    Positive(r.ingredientId) && Positive(r.quantity)
  }

  function Output(r: Row): IngredientInput
    requires Keep(r)
  {
    IngredientInput(r.ingredientId.value, r.quantity.value, if r.unit == "" then GRAM else r.unit)
  }

  /** The second `forEach`: the kept rows, in the table's order. */
  function EmitOf(order: seq<nat>, rows: map<nat, Row>): seq<IngredientInput>
    decreases |order|
  {
    if order == [] then []
    else
      var n := order[|order| - 1];
      EmitOf(order[..|order| - 1], rows) + (if n in rows && Keep(rows[n]) then [Output(rows[n])] else [])
  }

  function Emit(t: Table): seq<IngredientInput> {
    EmitOf(t.order, t.rows)
  }

  /** The whole parse, as both actions run it: two loops, the first filling
      the map of rows entry by entry, the second pushing the kept rows. */
  method ParseIngredients(entries: seq<(string, string)>, toNumber: string -> Num) returns (ingredients: seq<IngredientInput>)
    ensures ingredients == Emit(Collect(entries, toNumber))
  {
    var order: seq<nat> := [];
    var rows: map<nat, Row> := map[];
    var i := 0;
    while i < |entries|
      invariant 0 <= i <= |entries|
      invariant Table(order, rows) == Collect(entries[..i], toNumber)
    {
      assert entries[..i + 1][..i] == entries[..i];
      var (key, value) := entries[i];
      var m := MatchKey(key);
      if m.Some? {
        var (n, f) := m.value;
        if n !in rows {
          order := order + [n];
          rows := rows[n := DEFAULT_ROW];
        }
        var row := rows[n];
        if f == IngredientIdField {
          row := row.(ingredientId := toNumber(value));
        } else if f == QuantityField {
          row := row.(quantity := toNumber(value));
        } else {
          row := row.(unit := value);
        }
        rows := rows[n := row];
      }
      i := i + 1;
    }
    assert entries[..i] == entries;
    ingredients := [];
    var j := 0;
    while j < |order|
      invariant 0 <= j <= |order|
      invariant ingredients == EmitOf(order[..j], rows)
    {
      assert order[..j + 1][..j] == order[..j];
      var n := order[j];
      if n in rows && Keep(rows[n]) {
        ingredients := ingredients + [Output(rows[n])];
      }
      j := j + 1;
    }
    assert order[..j] == order;
  }

  // ----- Properties -----

  predicate NoDupNat(s: seq<nat>) {
    forall i, j :: 0 <= i < j < |s| ==> s[i] != s[j]
  }

  /** Entry `e` names row `n`. */
  predicate NamesRow(e: (string, string), n: nat) {
    MatchKey(e.0).Some? && MatchKey(e.0).value.0 == n
  }

  /** The table's order lists each row index once, and lists exactly the
      rows it holds. */
  ghost predicate WellFormed(t: Table) {
    NoDupNat(t.order) && forall n :: n in t.rows <==> n in t.order
  }

  /** Some entry of `entries` names row `n`. */
  ghost predicate Named(entries: seq<(string, string)>, n: nat) {
    exists i :: 0 <= i < |entries| && NamesRow(entries[i], n)
  }

  lemma AbsorbShape(t: Table, e: (string, string), toNumber: string -> Num)
    requires WellFormed(t)
    ensures WellFormed(Absorb(t, e, toNumber))
    ensures forall n :: n in Absorb(t, e, toNumber).order <==> n in t.order || NamesRow(e, n)
  {
    if MatchKey(e.0).Some? {
      var n := MatchKey(e.0).value.0;
      if n !in t.rows {
        var o := t.order + [n];
        assert forall i :: 0 <= i < |t.order| ==> o[i] == t.order[i];
        assert o[|t.order|] == n;
      }
    }
  }

  /** An entry names a row of `entries + [e]` when it names one of
      `entries` or `e` names it. */
  lemma NamedSnoc(entries: seq<(string, string)>, e: (string, string), n: nat)
    ensures Named(entries + [e], n) <==> Named(entries, n) || NamesRow(e, n)
  {
    var all := entries + [e];
    if Named(all, n) {
      var i :| 0 <= i < |all| && NamesRow(all[i], n);
      if i < |entries| {
        assert entries[i] == all[i];
      }
    }
    if Named(entries, n) {
      var i :| 0 <= i < |entries| && NamesRow(entries[i], n);
      assert all[i] == entries[i];
    }
    if NamesRow(e, n) {
      assert all[|entries|] == e;
    }
  }

  /** Each row index appears once in the order, the order lists exactly the
      rows, and exactly the indexes some entry names. */
  lemma {:induction false} CollectShape(entries: seq<(string, string)>, toNumber: string -> Num)
    ensures WellFormed(Collect(entries, toNumber))
    ensures forall n :: n in Collect(entries, toNumber).order <==> Named(entries, n)
    decreases |entries|
  {
    if entries != [] {
      var k := |entries| - 1;
      var pre, e := entries[..k], entries[k];
      assert entries == pre + [e];
      CollectShape(pre, toNumber);
      var t0 := Collect(pre, toNumber);
      assert Collect(entries, toNumber) == Absorb(t0, e, toNumber);
      AbsorbShape(t0, e, toNumber);
      forall n ensures n in Collect(entries, toNumber).order <==> Named(entries, n) {
        NamedSnoc(pre, e, n);
      }
    }
  }

  lemma CollectAppend(entries: seq<(string, string)>, e: (string, string), toNumber: string -> Num)
    ensures Collect(entries + [e], toNumber) == Absorb(Collect(entries, toNumber), e, toNumber)
  {
    assert (entries + [e])[..|entries|] == entries;
  }

  /** A later value for the same row and field replaces the earlier one. */
  lemma LastWriteWins(entries: seq<(string, string)>, e1: (string, string), e2: (string, string), toNumber: string -> Num)
    requires MatchKey(e1.0).Some? && MatchKey(e1.0) == MatchKey(e2.0)
    ensures Collect(entries + [e1, e2], toNumber) == Collect(entries + [e2], toNumber)
  {
    CollectAppend(entries + [e1], e2, toNumber);
    CollectAppend(entries, e1, toNumber);
    CollectAppend(entries, e2, toNumber);
    assert entries + [e1, e2] == entries + [e1] + [e2];
    AbsorbOverwrite(Collect(entries, toNumber), e1, e2, toNumber);
  }

  lemma AbsorbOverwrite(t: Table, e1: (string, string), e2: (string, string), toNumber: string -> Num)
    requires MatchKey(e1.0).Some? && MatchKey(e1.0) == MatchKey(e2.0)
    ensures Absorb(Absorb(t, e1, toNumber), e2, toNumber) == Absorb(t, e2, toNumber)
  {
    var (n, f) := MatchKey(e1.0).value;
    var t1 := if n in t.rows then t else Table(t.order + [n], t.rows[n := DEFAULT_ROW]);
    assert Absorb(t, e1, toNumber).order == t1.order;
    assert Absorb(t, e1, toNumber).rows == t1.rows[n := SetField(t1.rows[n], f, e1.1, toNumber)];
  }

  /** One entry keeps the order so far and can only add at its end. */
  lemma AbsorbExtends(t: Table, e: (string, string), toNumber: string -> Num)
    ensures |t.order| <= |Absorb(t, e, toNumber).order|
    ensures Absorb(t, e, toNumber).order[..|t.order|] == t.order
  {
  }

  /** Later entries keep the order built from earlier ones as a prefix. */
  lemma {:induction false} CollectExtends(entries: seq<(string, string)>, more: seq<(string, string)>, toNumber: string -> Num)
    ensures |Collect(entries, toNumber).order| <= |Collect(entries + more, toNumber).order|
    ensures Collect(entries + more, toNumber).order[..|Collect(entries, toNumber).order|] == Collect(entries, toNumber).order
    decreases |more|
  {
    if more == [] {
      assert entries + more == entries;
    } else {
      var k := |more| - 1;
      CollectExtends(entries, more[..k], toNumber);
      assert entries + more == (entries + more[..k]) + [more[k]];
      CollectAppend(entries + more[..k], more[k], toNumber);
      AbsorbExtends(Collect(entries + more[..k], toNumber), more[k], toNumber);
    }
  }

  /** Every place of `n` in `o` comes before every place of `m`. */
  predicate Before(o: seq<nat>, n: nat, m: nat) {
    forall i, j :: 0 <= i < |o| && 0 <= j < |o| && o[i] == n && o[j] == m ==> i < j
  }

  /** Rows are sent in order of first appearance: a row named within the
      first `k` entries comes before every row first named after them. */
  lemma FirstAppearanceOrder(entries: seq<(string, string)>, k: nat, n: nat, m: nat, toNumber: string -> Num)
    requires k <= |entries| && Named(entries[..k], n) && Named(entries, m) && !Named(entries[..k], m)
    ensures n in Collect(entries, toNumber).order && m in Collect(entries, toNumber).order
    ensures Before(Collect(entries, toNumber).order, n, m)
  {
    var pre := entries[..k];
    assert pre + entries[k..] == entries;
    CollectExtends(pre, entries[k..], toNumber);
    CollectShape(pre, toNumber);
    CollectShape(entries, toNumber);
    PrefixBefore(Collect(pre, toNumber).order, Collect(entries, toNumber).order, n, m);
  }

  /** In a duplicate-free order that extends `p`, a member of `p` comes
      before anything outside it. */
  lemma PrefixBefore(p: seq<nat>, o: seq<nat>, n: nat, m: nat)
    requires |p| <= |o| && o[..|p|] == p && NoDupNat(o) && n in p && m !in p
    ensures Before(o, n, m)
  {
    var i0 :| 0 <= i0 < |p| && p[i0] == n;
    assert o[i0] == n;
    forall i, j | 0 <= i < |o| && 0 <= j < |o| && o[i] == n && o[j] == m ensures i < j {
      assert i == i0;
    }
  }

  /** Not in index order: a form listing row 2 before row 1 sends row 2
      first. */
  lemma FirstAppearanceNotIndexOrder(toNumber: string -> Num, u1: string, u2: string)
    ensures Collect([(Key(2, UnitField), u2), (Key(1, UnitField), u1)], toNumber).order == [2, 1]
  {
    KeyRoundTrip(2, UnitField);
    KeyRoundTrip(1, UnitField);
    var a, b := (Key(2, UnitField), u2), (Key(1, UnitField), u1);
    CollectAppend([], a, toNumber);
    CollectAppend([a], b, toNumber);
    assert [] + [a] == [a] && [a] + [b] == [a, b];
    assert Collect([a], toNumber).order == [2];
  }

  /** Digits with leading zeros name the same row: `ingredients[01]` is
      row 1. */
  lemma LeadingZerosMerge(f: Field)
    ensures MatchKey(PREFIX + "01" + "]." + FieldName(f)) == Some((1, f))
  {
    assert "01"[..1] == "0";
    assert "0"[..0] == "";
    assert AllDigits("01");
    assert DigitsValue("0") == 0;
    assert DigitsValue("01") == 1;
    MatchKeyExactly(PREFIX + "01" + "]." + FieldName(f), "01", f);
  }

  /** What is sent: only kept rows, each with a positive id and quantity and
      a non-empty unit; and every kept row of the table is sent. */
  lemma {:induction false} EmitExactlyKept(order: seq<nat>, rows: map<nat, Row>)
    ensures |EmitOf(order, rows)| <= |order|
    ensures forall o :: o in EmitOf(order, rows) ==> o.ingredientId > 0.0 && o.quantity > 0.0 && o.unit != ""
    ensures forall n :: n in order && n in rows && Keep(rows[n]) ==> Output(rows[n]) in EmitOf(order, rows)
    decreases |order|
  {
    if order != [] {
      var k := |order| - 1;
      EmitExactlyKept(order[..k], rows);
      forall n | n in order && n in rows && Keep(rows[n]) ensures Output(rows[n]) in EmitOf(order, rows) {
        if n != order[k] {
          assert n in order[..k];
        }
      }
    }
  }

  /** The entries the dish form submits for its rows (id, quantity and unit
      texts), row by row. */
  function FormEntries(texts: seq<(string, string, string)>): seq<(string, string)>
    decreases |texts|
  {
    if texts == [] then []
    else
      var n := |texts| - 1;
      FormEntries(texts[..n]) + RowEntries(n, texts[n])
  }

  /** The three entries the form writes for row `n`. */
  function RowEntries(n: nat, x: (string, string, string)): seq<(string, string)> {
    [(Key(n, IngredientIdField), x.0), (Key(n, QuantityField), x.1), (Key(n, UnitField), x.2)]
  }

  /** Absorbing the three entries of a new row appends it to the order and
      stores its texts. */
  lemma AbsorbRowEntries(t0: Table, n: nat, x: (string, string, string), toNumber: string -> Num)
    requires n !in t0.rows
    ensures var es := RowEntries(n, x);
      Absorb(Absorb(Absorb(t0, es[0], toNumber), es[1], toNumber), es[2], toNumber)
        == Table(t0.order + [n], t0.rows[n := Row(toNumber(x.0), toNumber(x.1), x.2)])
  {
    KeyRoundTrip(n, IngredientIdField);
    KeyRoundTrip(n, QuantityField);
    KeyRoundTrip(n, UnitField);
  }

  lemma CollectAppendThree(entries: seq<(string, string)>, es: seq<(string, string)>, toNumber: string -> Num)
    requires |es| == 3
    ensures Collect(entries + es, toNumber)
      == Absorb(Absorb(Absorb(Collect(entries, toNumber), es[0], toNumber), es[1], toNumber), es[2], toNumber)
  {
    CollectAppend(entries, es[0], toNumber);
    CollectAppend(entries + [es[0]], es[1], toNumber);
    CollectAppend(entries + [es[0]] + [es[1]], es[2], toNumber);
    assert entries + es == entries + [es[0]] + [es[1]] + [es[2]];
  }

  /** One more form row: the table gains that row at the end of its order. */
  lemma FormStep(texts: seq<(string, string, string)>, toNumber: string -> Num)
    requires texts != []
    ensures var n := |texts| - 1;
      var t0 := Collect(FormEntries(texts[..n]), toNumber);
      n !in t0.rows ==>
        Collect(FormEntries(texts), toNumber) ==
          Table(t0.order + [n], t0.rows[n := Row(toNumber(texts[n].0), toNumber(texts[n].1), texts[n].2)])
  {
    var n := |texts| - 1;
    var pre := FormEntries(texts[..n]);
    var es := RowEntries(n, texts[n]);
    assert FormEntries(texts) == pre + es;
    CollectAppendThree(pre, es, toNumber);
    var t0 := Collect(pre, toNumber);
    if n !in t0.rows {
      AbsorbRowEntries(t0, n, texts[n], toNumber);
    }
  }

  lemma IndexesSnoc(n: nat)
    ensures seq(n + 1, i => i) == seq(n, i => i) + [n]
  {
    var a, b := seq(n + 1, i => i), seq(n, i => i) + [n];
    assert |a| == |b|;
    forall i | 0 <= i < n + 1 ensures a[i] == b[i] {
      if i < n {
        assert b[i] == seq(n, i => i)[i];
      }
    }
  }

  /** Round trip with the dish form: parsing what the form submits gives one
      row per form row, in form order, holding the form's texts. */
  lemma {:induction false} FormRoundTrip(texts: seq<(string, string, string)>, toNumber: string -> Num)
    ensures var t := Collect(FormEntries(texts), toNumber);
      t.order == seq(|texts|, i => i) &&
      (forall n: nat :: n in t.rows <==> n < |texts|) &&
      (forall n :: 0 <= n < |texts| ==> t.rows[n] == Row(toNumber(texts[n].0), toNumber(texts[n].1), texts[n].2))
    decreases |texts|
  {
    if texts != [] {
      var n := |texts| - 1;
      var init := texts[..n];
      FormRoundTrip(init, toNumber);
      var t0 := Collect(FormEntries(init), toNumber);
      assert |init| == n;
      assert n !in t0.rows;
      FormStep(texts, toNumber);
      var t := Collect(FormEntries(texts), toNumber);
      IndexesSnoc(n);
      forall m: nat ensures m in t.rows <==> m < |texts| {
        assert m in t.rows <==> m in t0.rows || m == n;
      }
      forall m | 0 <= m < n ensures t.rows[m] == Row(toNumber(texts[m].0), toNumber(texts[m].1), texts[m].2) {
        assert init[m] == texts[m];
      }
    }
  }
}
