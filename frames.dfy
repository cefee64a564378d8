/** The pandas DataFrame operations the pipeline relies on, over frames as values:
    ordered labelled columns sharing an index of `rows` rows. */
module Frames {

  import opened Wrappers
  import opened Dicts

  /** A cell read with dtype=str is text; a coerced cell keeps its source text and
      records the type tag it was parsed as (the parsed value itself is not modelled). */
  datatype Cell = Text(s: string) | Parsed(tag: string, s: string)

  datatype Column = Column(name: string, cells: seq<Cell>)

  /** A frame may have zero columns over a non-empty index, as in pandas. */
  datatype Table = Table(columns: seq<Column>, rows: nat)

  /** pd.DataFrame({}) */
  const EmptyFrame: Table := Table([], 0)

  /** DataFrame.empty: no rows, or no columns. */
  predicate IsEmpty(t: Table) {
    t.rows == 0 || |t.columns| == 0
  }

  /** Every column holds one cell per row. */
  predicate WellFormed(t: Table) {
    forall i :: 0 <= i < |t.columns| ==> |t.columns[i].cells| == t.rows
  }

  predicate UniqueLabels(cols: seq<Column>) {
    forall i, j :: 0 <= i < j < |cols| ==> cols[i].name != cols[j].name
  }

  /** list(df.columns) */
  function Names(t: Table): seq<string> {
    seq(|t.columns|, i requires 0 <= i < |t.columns| => t.columns[i].name)
  }

  /** set(df.columns) */
  function NameSet(t: Table): set<string> {
    set i | 0 <= i < |t.columns| :: t.columns[i].name
  }

  /** The label df.rename(columns=mapping) gives a column: a key of the mapping is
      replaced by its value, any other name is kept. */
  function Relabel(name: string, mapping: Dict<string>): string {
    match Get(mapping, name)
    case Some(v) => v
    case None => name
  }

  /** df.rename(columns=mapping) */
  function Rename(t: Table, mapping: Dict<string>): Table {
    Table(seq(|t.columns|, i requires 0 <= i < |t.columns| =>
                Column(Relabel(t.columns[i].name, mapping), t.columns[i].cells)),
          t.rows)
  }

  /** The columns that carry `name`, in frame order (several when labels repeat). */
  function Labelled(cols: seq<Column>, name: string): seq<Column> {
    if cols == [] then []
    else (if cols[0].name == name then [cols[0]] else []) + Labelled(cols[1..], name)
  }

  /** df[name] gives the frame's columns carrying that label and no others. */
  lemma {:induction false} LabelledExact(cols: seq<Column>, name: string)
    ensures forall c :: c in Labelled(cols, name) ==> c in cols && c.name == name
    ensures forall i :: 0 <= i < |cols| && cols[i].name == name ==> cols[i] in Labelled(cols, name)
  {
    if cols != [] {
      LabelledExact(cols[1..], name);
      assert forall i :: 1 <= i < |cols| ==> cols[i] == cols[1..][i - 1];
    }
  }

  /** Labelled keeps frame order and multiplicity: the columns carrying a label in a
      concatenation are those of the first part followed by those of the second. */
  lemma {:induction false} LabelledAppend(a: seq<Column>, b: seq<Column>, name: string)
    ensures Labelled(a + b, name) == Labelled(a, name) + Labelled(b, name)
  {
    if a == [] {
      assert a + b == b;
    } else {
      var ab := a + b;
      assert ab[0] == a[0] && ab[1..] == a[1..] + b;
      var head := if a[0].name == name then [a[0]] else [];
      var x, y := Labelled(a[1..], name), Labelled(b, name);
      LabelledAppend(a[1..], b, name);
      LabelledCons(a, name);
      LabelledCons(ab, name);
      assert head + (x + y) == (head + x) + y;
    }
  }

  /** One unfolding of Labelled. */
  lemma LabelledCons(cols: seq<Column>, name: string)
    requires cols != []
    ensures Labelled(cols, name) == (if cols[0].name == name then [cols[0]] else []) + Labelled(cols[1..], name)
  {}

  /** The columns df[labels] selects: for each label in order, every column carrying it. */
  function SelectColumns(cols: seq<Column>, labels: seq<string>): seq<Column> {
    if labels == [] then []
    else Labelled(cols, labels[0]) + SelectColumns(cols, labels[1..])
  }

  /** df[labels] selects columns of the frame, and only ones carrying a requested label. */
  lemma {:induction false} SelectColumnsSound(cols: seq<Column>, labels: seq<string>)
    ensures forall c :: c in SelectColumns(cols, labels) ==> c in cols && c.name in labels
  {
    if labels != [] {
      LabelledExact(cols, labels[0]);
      SelectColumnsSound(cols, labels[1..]);
    }
  }

  /** df[labels] */
  function Select(t: Table, labels: seq<string>): Table {
    Table(SelectColumns(t.columns, labels), t.rows)
  }

  function Filled(value: string, n: nat): seq<Cell> {
    seq(n, _ => Text(value))
  }

  /** df[name] = value: every column already carrying the label is overwritten with the
      constant; when none does, a new constant column is appended at the end. */
  function AssignConstant(t: Table, name: string, value: string): (r: Table)
    ensures r.rows == t.rows
    ensures name in NameSet(r)
    ensures forall i :: 0 <= i < |r.columns| && r.columns[i].name == name ==>
              r.columns[i].cells == Filled(value, t.rows)
    ensures name !in NameSet(t) ==> Names(r) == Names(t) + [name]
    ensures name in NameSet(t) ==> Names(r) == Names(t)
    ensures forall i :: 0 <= i < |t.columns| && t.columns[i].name != name ==>
              r.columns[i] == t.columns[i]
    ensures WellFormed(t) ==> WellFormed(r)
  {
    var filled := Column(name, Filled(value, t.rows));
    if name in NameSet(t) then
      var r := Table(seq(|t.columns|, i requires 0 <= i < |t.columns| =>
                           if t.columns[i].name == name then filled else t.columns[i]),
                     t.rows);
      var k :| 0 <= k < |t.columns| && t.columns[k].name == name;
      assert r.columns[k].name == name;
      r
    else
      var r := Table(t.columns + [filled], t.rows);
      assert r.columns[|t.columns|].name == name;
      r
  }

  /** Renaming and selecting never change the index, and never change a column's cells:
      every selected column is a column of the input, under its renamed label. */
  lemma SelectRenameKeepsRows(t: Table, mapping: Dict<string>, labels: seq<string>)
    ensures Select(Rename(t, mapping), labels).rows == t.rows
    ensures WellFormed(t) ==> WellFormed(Select(Rename(t, mapping), labels))
    ensures forall c :: c in Select(Rename(t, mapping), labels).columns ==>
              exists i :: 0 <= i < |t.columns| && c.cells == t.columns[i].cells &&
                          c.name == Relabel(t.columns[i].name, mapping) && c.name in labels
  {
    var u := Rename(t, mapping);
    assert WellFormed(t) ==> WellFormed(u);
    SelectColumnsSound(u.columns, labels);
    forall c | c in Select(u, labels).columns
      ensures exists i :: 0 <= i < |t.columns| && c.cells == t.columns[i].cells &&
                          c.name == Relabel(t.columns[i].name, mapping) && c.name in labels
    {
      var i :| 0 <= i < |u.columns| && u.columns[i] == c;
    }
  }

  /** A label no column carries selects nothing. */
  lemma {:induction false} LabelledNone(cols: seq<Column>, name: string)
    requires forall i :: 0 <= i < |cols| ==> cols[i].name != name
    ensures Labelled(cols, name) == []
  {
    if cols != [] {
      assert forall i :: 0 <= i < |cols[1..]| ==> cols[1..][i] == cols[i + 1];
      LabelledNone(cols[1..], name);
    }
  }

  /** Over distinct labels, the columns carrying the label of column k are that column alone. */
  lemma {:induction false} LabelledUnique(cols: seq<Column>, k: nat)
    requires UniqueLabels(cols) && k < |cols|
    ensures Labelled(cols, cols[k].name) == [cols[k]]
  {
    var rest := cols[1..];
    assert UniqueLabels(rest) by {
      forall a, b | 0 <= a < b < |rest| ensures rest[a].name != rest[b].name {
        assert cols[a + 1].name != cols[b + 1].name;
      }
    }
    if k == 0 {
      assert forall i :: 0 <= i < |rest| ==> rest[i].name != cols[0].name by {
        forall i | 0 <= i < |rest| ensures rest[i].name != cols[0].name {
          assert cols[i + 1].name != cols[0].name;
        }
      }
      LabelledNone(rest, cols[0].name);
    } else {
      assert cols[0].name != cols[k].name;
      assert rest[k - 1] == cols[k];
      LabelledUnique(rest, k - 1);
    }
  }

  lemma {:induction false} SelectColumnsExact(cols: seq<Column>, labels: seq<string>)
    requires UniqueLabels(cols)
    requires forall l :: l in labels ==> exists i :: 0 <= i < |cols| && cols[i].name == l
    ensures |SelectColumns(cols, labels)| == |labels|
    ensures forall i, k :: 0 <= i < |labels| && 0 <= k < |cols| && cols[k].name == labels[i] ==>
              SelectColumns(cols, labels)[i] == cols[k]
  {
    if labels != [] {
      assert labels[0] in labels;
      var k :| 0 <= k < |cols| && cols[k].name == labels[0];
      LabelledUnique(cols, k);
      assert forall l :: l in labels[1..] ==> l in labels;
      SelectColumnsExact(cols, labels[1..]);
      var rest := SelectColumns(cols, labels[1..]);
      assert SelectColumns(cols, labels) == [cols[k]] + rest;
      forall i, k' | 0 <= i < |labels| && 0 <= k' < |cols| && cols[k'].name == labels[i]
        ensures SelectColumns(cols, labels)[i] == cols[k']
      {
        if i == 0 {
          assert k' == k;
        } else {
          assert labels[1..][i - 1] == labels[i];
        }
      }
    }
  }

  /** When labels are distinct and every requested label is present, df[labels] has
      exactly the requested labels, in the requested order. */
  lemma SelectExact(t: Table, labels: seq<string>)
    requires UniqueLabels(t.columns)
    requires forall l :: l in labels ==> l in NameSet(t)
    ensures Names(Select(t, labels)) == labels
  {
    SelectColumnsExact(t.columns, labels);
    forall i | 0 <= i < |labels| ensures Names(Select(t, labels))[i] == labels[i] {
      assert labels[i] in labels;
      var k :| 0 <= k < |t.columns| && t.columns[k].name == labels[i];
    }
  }

  /** Renaming keeps labels distinct when the mapping is injective and no unmapped
      column already carries one of the mapping's target labels. */
  lemma RenameUnique(t: Table, mapping: Dict<string>)
    requires UniqueLabels(t.columns) && UniqueKeys(mapping)
    requires forall i, j :: 0 <= i < j < |mapping| ==> mapping[i].1 != mapping[j].1
    requires forall i :: 0 <= i < |t.columns| && t.columns[i].name !in Keys(mapping) ==>
               t.columns[i].name !in Values(mapping)
    ensures UniqueLabels(Rename(t, mapping).columns)
  {
    var u := Rename(t, mapping);
    forall a, b | 0 <= a < b < |u.columns| ensures u.columns[a].name != u.columns[b].name {
      var x, y := t.columns[a].name, t.columns[b].name;
      assert x != y;
      if x in Keys(mapping) {
        var p :| 0 <= p < |mapping| && mapping[p].0 == x;
        GetAt(mapping, p);
        if y in Keys(mapping) {
          var q :| 0 <= q < |mapping| && mapping[q].0 == y;
          GetAt(mapping, q);
          assert p != q;
          assert mapping[p].1 != mapping[q].1 by {
            if p < q {} else {}
          }
        } else {
          GetAbsent(mapping, y);
          assert Values(mapping)[p] == mapping[p].1;
        }
      } else {
        GetAbsent(mapping, x);
        if y in Keys(mapping) {
          var q :| 0 <= q < |mapping| && mapping[q].0 == y;
          GetAt(mapping, q);
          assert Values(mapping)[q] == mapping[q].1;
        } else {
          GetAbsent(mapping, y);
        }
      }
    }
  }

  /** A requested label that some column carries is still carried after df[labels]. */
  lemma {:induction false} SelectKeepsPresent(cols: seq<Column>, labels: seq<string>, l: string)
    requires l in labels
    requires exists i :: 0 <= i < |cols| && cols[i].name == l
    ensures exists c :: c in SelectColumns(cols, labels) && c.name == l
  {
    if labels[0] == l {
      LabelledExact(cols, l);
      var i :| 0 <= i < |cols| && cols[i].name == l;
      var c := cols[i];
      assert c in Labelled(cols, l);
      assert c in SelectColumns(cols, labels);
    } else {
      SelectKeepsPresent(cols, labels[1..], l);
      var c :| c in SelectColumns(cols, labels[1..]) && c.name == l;
      assert c in SelectColumns(cols, labels);
    }
  }
}
