/**
 * The pure part of the predictive dashboard: filtering the loaded
 * opportunities by HS code, choosing a product, assembling the six
 * features the classifier was trained on, and turning its probability
 * into a verdict and a report entry.
 */
module Scoring {
  import opened Wrappers
  import opened Cells

  /** One row of the opportunities sheet, keyed by column name (`to_dict()`). */
  type Row = map<string, Cell>

  const PRODUCT := "Produit"
  const HS_CODE := "CODE SH"
  const ALIGNMENT_FEATURE := "Alignement stratégique"

  /** The classifier's input columns, in the order it was trained on. */
  const FEATURES_NAMES: seq<string> := [
    "Croissance Maroc (% p.a.)",
    "ACR",
    "PCI",
    "Croissance Monde (% p.a.)",
    "Taille Marche (millier USD)",
    ALIGNMENT_FEATURE
  ]

  const HIGH := "ÉLEVÉ"
  const LOW := "FAIBLE"
  const YES := "OUI"
  const NO := "NON"

  /** A sheet as `pd.read_excel` returns it: its column names and its rows. */
  datatype Sheet = Sheet(columns: set<string>, rows: seq<Row>) {
    /** Every row has exactly the sheet's columns. */
    predicate WellFormed() {
      forall r :: r in rows ==> r.Keys == columns
    }

    /** The two identifier columns the dashboard cannot work without. */
    predicate HasIdColumns() {
      PRODUCT in columns && HS_CODE in columns
    }
  }

  /** Every row carries a product name and an HS code. */
  predicate Keyed(rows: seq<Row>)
  {
    forall r :: r in rows ==> PRODUCT in r && HS_CODE in r
  }

  lemma WellFormedKeyed(sheet: Sheet)
    requires sheet.WellFormed() && sheet.HasIdColumns()
    ensures Keyed(sheet.rows)
  {
  }

  /** The trained classifier, seen only through the probability of the success class. */
  datatype Classifier = Classifier(successProbability: seq<Cell> -> real)

  // ---------------------------------------------------------------------------
  // Filtering by HS code
  // ---------------------------------------------------------------------------

  /** The row's HS code, as text, contains the query. */
  predicate HsMatches(r: Row, query: string)
    requires HS_CODE in r
  {
    Contains(AsText(r[HS_CODE]), query)
  }

  /** The rows whose HS code contains the query, in their original order. */
  function FilterByCode(rows: seq<Row>, query: string): (result: seq<Row>)
    requires Keyed(rows)
    ensures |result| <= |rows|
    ensures forall r :: r in result ==> r in rows && HsMatches(r, query)
  {
    if rows == [] then []
    else (if HsMatches(rows[0], query) then [rows[0]] else []) + FilterByCode(rows[1..], query)
  }

  /** The candidate list of the sidebar: the whole sheet for an empty query. */
  function HsFilter(rows: seq<Row>, query: string): (result: seq<Row>)
    requires Keyed(rows)
    ensures Keyed(result)
  {
    if query == "" then rows else FilterByCode(rows, query)
  }

  /** A row survives the filter exactly when its HS code contains the query. */
  lemma {:induction false} FilterByCodeComplete(rows: seq<Row>, query: string, r: Row)
    requires Keyed(rows)
    ensures r in FilterByCode(rows, query) <==> r in rows && HsMatches(r, query)
  {
    if rows != [] {
      FilterByCodeComplete(rows[1..], query, r);
      assert rows == [rows[0]] + rows[1..];
    }
  }

  /** Filtering a concatenation filters each part and keeps them in order. */
  lemma {:induction false} FilterByCodeAppend(a: seq<Row>, b: seq<Row>, query: string)
    requires Keyed(a) && Keyed(b)
    ensures Keyed(a + b)
    ensures FilterByCode(a + b, query) == FilterByCode(a, query) + FilterByCode(b, query)
  {
    if a == [] {
      assert a + b == b;
    } else {
      assert (a + b)[0] == a[0];
      assert (a + b)[1..] == a[1..] + b;
      FilterByCodeAppend(a[1..], b, query);
    }
  }

  /** An empty query keeps every row, so the `if search_hs` guard only saves work. */
  lemma {:induction false} FilterByCodeEmptyQuery(rows: seq<Row>)
    requires Keyed(rows)
    ensures FilterByCode(rows, "") == rows
  {
    if rows != [] {
      ContainsEmpty(AsText(rows[0][HS_CODE]));
      FilterByCodeEmptyQuery(rows[1..]);
    }
  }

  /**
   * The HS filter is the order-preserving selection of matching rows:
   * it keeps exactly the matching rows, distributes over concatenation and
   * keeps or drops a single row according to its HS code.
   */
  lemma HsFilterSpec(a: seq<Row>, b: seq<Row>, query: string)
    requires Keyed(a) && Keyed(b)
    ensures Keyed(a + b)
    ensures forall r :: r in HsFilter(a, query) <==> r in a && HsMatches(r, query)
    ensures HsFilter(a + b, query) == HsFilter(a, query) + HsFilter(b, query)
    ensures forall k :: 0 <= k < |a| ==>
      HsFilter([a[k]], query) == if HsMatches(a[k], query) then [a[k]] else []
  {
    FilterByCodeAppend(a, b, query);
    forall r ensures r in HsFilter(a, query) <==> r in a && HsMatches(r, query) {
      FilterByCodeComplete(a, query, r);
      if query == "" {
        if r in a {
          ContainsEmpty(AsText(r[HS_CODE]));
        }
      }
    }
    forall k | 0 <= k < |a|
      ensures HsFilter([a[k]], query) == if HsMatches(a[k], query) then [a[k]] else []
    {
      if query == "" {
        ContainsEmpty(AsText(a[k][HS_CODE]));
      } else {
        assert [a[k]][1..] == [];
      }
    }
  }

  // ---------------------------------------------------------------------------
  // Selecting a product
  // ---------------------------------------------------------------------------

  /** The `Produit` column as a list, the options of the product select box. */
  function ProductList(rows: seq<Row>): (names: seq<Cell>)
    requires Keyed(rows)
    ensures |names| == |rows|
    ensures forall k :: 0 <= k < |rows| ==> names[k] == rows[k][PRODUCT]
  {
    seq(|rows|, k requires 0 <= k < |rows| => rows[k][PRODUCT])
  }

  /**
   * What a select box over `options` returns once the user has picked the
   * option at position `pick`: nothing when there are no options.
   */
  function Selectbox(options: seq<Cell>, pick: nat): (chosen: Option<Cell>)
    requires options != [] ==> pick < |options|
    ensures chosen.None? <==> options == []
    ensures chosen.Some? ==> chosen.value in options
  {
    if options == [] then None else Some(options[pick])
  }

  /** Position of the first row whose product name equals `name` under pandas `==`. */
  function FirstMatch(rows: seq<Row>, name: Cell): (found: Option<nat>)
    requires Keyed(rows)
    ensures found.Some? ==> found.value < |rows| && PyEq(rows[found.value][PRODUCT], name)
    ensures found.Some? ==> forall j :: 0 <= j < found.value ==> !PyEq(rows[j][PRODUCT], name)
    ensures found.None? ==> forall j :: 0 <= j < |rows| ==> !PyEq(rows[j][PRODUCT], name)
  {
    if rows == [] then None
    else if PyEq(rows[0][PRODUCT], name) then Some(0)
    else match FirstMatch(rows[1..], name)
      case None => None
      case Some(k) => Some(k + 1)
  }

  /**
   * The selected product can be scored: it is set, truthy (otherwise the
   * HS code shown beside it is never looked up) and some candidate row
   * carries it (otherwise `iloc[0]` has no row to take).
   */
  predicate ScoringDefined(rows: seq<Row>, selected: Option<Cell>)
  {
    Keyed(rows) && selected.Some? && Truthy(selected.value) && FirstMatch(rows, selected.value).Some?
  }

  /**
   * A truthy selection is shown with the HS code of its first candidate
   * row, so some candidate row must carry it (otherwise `iloc[0]` fails
   * even before the alignment is looked at).
   */
  predicate SelectionShown(rows: seq<Row>, selected: Option<Cell>)
    requires Keyed(rows)
  {
    selected.Some? && Truthy(selected.value) ==> FirstMatch(rows, selected.value).Some?
  }

  /**
   * A product picked from a non-empty candidate list can be scored unless
   * its name is NaN or falsy.
   */
  lemma SelectionScorable(rows: seq<Row>, pick: nat)
    requires Keyed(rows) && pick < |rows|
    ensures var chosen := Selectbox(ProductList(rows), pick);
      ScoringDefined(rows, chosen) <==> !rows[pick][PRODUCT].Nan? && Truthy(rows[pick][PRODUCT])
  {
    var name := rows[pick][PRODUCT];
    PyEqReflexive(name);
    if name.Nan? {
      NanMatchesNothing(rows, name);
    }
  }

  /** No row carries a NaN name: NaN is not equal to anything. */
  lemma NanMatchesNothing(rows: seq<Row>, name: Cell)
    requires Keyed(rows) && name.Nan?
    ensures FirstMatch(rows, name).None?
  {
  }

  // ---------------------------------------------------------------------------
  // Feature assembly
  // ---------------------------------------------------------------------------

  /** `xs` is obtained from `ys` by dropping elements, keeping the order of the rest. */
  predicate SubsequenceOf<T(==)>(xs: seq<T>, ys: seq<T>)
    decreases |ys|
  {
    xs == [] ||
    (ys != [] && ((xs[0] == ys[0] && SubsequenceOf(xs[1..], ys[1..])) || SubsequenceOf(xs, ys[1..])))
  }

  /** The names among `names` that are not columns of `d`, in the order of `names`. */
  function MissingFrom(names: seq<string>, d: Row): (missing: seq<string>)
    ensures |missing| <= |names|
    ensures SubsequenceOf(missing, names)
    ensures forall n :: n in missing <==> n in names && n !in d
  {
    if names == [] then []
    else
      var rest := MissingFrom(names[1..], d);
      if names[0] in d then rest
      else assert ([names[0]] + rest)[1..] == rest; [names[0]] + rest
  }

  /**
   * The classifier's input for one row: the row's values with the alignment
   * column replaced by the session's alignment, projected on `FEATURES_NAMES`.
   * Projecting on a column the row lacks fails with the missing names.
   */
  function Assemble(row: Row, alignment: int): (r: Result<seq<Cell>, seq<string>>)
    ensures r.Success? <==> forall k :: 0 <= k < 5 ==> FEATURES_NAMES[k] in row
    ensures r.Success? ==> |r.value| == |FEATURES_NAMES| == 6
    ensures r.Success? ==> r.value[5] == Int(alignment)
    ensures r.Success? ==> forall k :: 0 <= k < 5 ==> r.value[k] == row[FEATURES_NAMES[k]]
    ensures r.Failure? ==> r.error != [] && SubsequenceOf(r.error, FEATURES_NAMES)
    ensures r.Failure? ==> forall n :: n in r.error <==> n in FEATURES_NAMES[..5] && n !in row
  {
    var input := row[ALIGNMENT_FEATURE := Int(alignment)];
    var missing := MissingFrom(FEATURES_NAMES, input);
    MissingFeatureNames(row, alignment, input, missing);
    if missing == [] then
      Success(seq(|FEATURES_NAMES|, k requires 0 <= k < |FEATURES_NAMES| => input[FEATURES_NAMES[k]]))
    else
      Failure(missing)
  }

  /** With the alignment column always supplied, only the first five feature names can be missing. */
  lemma MissingFeatureNames(row: Row, alignment: int, input: Row, missing: seq<string>)
    requires input == row[ALIGNMENT_FEATURE := Int(alignment)]
    requires forall n :: n in missing <==> n in FEATURES_NAMES && n !in input
    ensures missing == [] <==> forall k :: 0 <= k < 5 ==> FEATURES_NAMES[k] in row
    ensures forall n :: n in missing <==> n in FEATURES_NAMES[..5] && n !in row
  {
    var names := FEATURES_NAMES;
    assert forall k :: 0 <= k < 5 ==> names[k] != ALIGNMENT_FEATURE;
    assert forall n :: n in names <==> n in names[..5] || n == ALIGNMENT_FEATURE;
    if missing != [] {
      var n := missing[0];
      assert n in names[..5] && n !in row;
      var k :| 0 <= k < 5 && names[..5][k] == n;
      assert names[k] !in row;
    } else {
      forall k | 0 <= k < 5 ensures names[k] in row {
        assert names[k] in names;
      }
    }
  }

  /** Whatever alignment the record itself held, the session's alignment is what gets scored. */
  lemma AlignmentOverride(row: Row, a: int, held: Cell)
    ensures Assemble(row[ALIGNMENT_FEATURE := held], a) == Assemble(row, a)
  {
    var row' := row[ALIGNMENT_FEATURE := held];
    assert row'[ALIGNMENT_FEATURE := Int(a)] == row[ALIGNMENT_FEATURE := Int(a)];
  }

  // ---------------------------------------------------------------------------
  // Scoring, verdict and report
  // ---------------------------------------------------------------------------

  /** What the dashboard body shows for the current candidates, selection and alignment. */
  datatype Outcome =
    | AwaitingAlignment
    | MissingFeatures(names: seq<string>)
    | Scored(row: Row, features: seq<Cell>, probability: real)

  /**
   * The body of the dashboard: nothing is predicted while the alignment is
   * unset; otherwise the first candidate row carrying the selected name is
   * assembled and scored.
   */
  function Evaluate(rows: seq<Row>, selected: Option<Cell>, alignment: Option<int>, model: Classifier): (o: Outcome)
    requires Keyed(rows)
    requires SelectionShown(rows, selected)
    requires alignment.Some? ==> ScoringDefined(rows, selected)
    ensures o.AwaitingAlignment? <==> alignment.None?
    ensures alignment.Some? ==>
      var k := FirstMatch(rows, selected.value).value;
      match Assemble(rows[k], alignment.value)
      case Failure(names) => o == MissingFeatures(names)
      case Success(v) => o == Scored(rows[k], v, model.successProbability(v))
    ensures o.Scored? ==> o.row in rows && PyEq(o.row[PRODUCT], selected.value)
  {
    if alignment.None? then AwaitingAlignment
    else
      var row := rows[FirstMatch(rows, selected.value).value];
      match Assemble(row, alignment.value)
      case Failure(names) => MissingFeatures(names)
      case Success(v) => Scored(row, v, model.successProbability(v))
  }

  /** The verdict: high potential strictly above one half. */
  function Verdict(probability: real): (v: string)
    ensures v == HIGH <==> probability > 0.5
    ensures v == LOW <==> probability <= 0.5
  {
    if probability > 0.5 then HIGH else LOW
  }

  /** The label of the session's alignment: "OUI" for 1, "NON" otherwise. */
  function AlignmentLabel(alignment: int): (text: string)
    ensures text == YES <==> alignment == 1
    ensures text == NO <==> alignment != 1
  {
    if alignment == 1 then YES else NO
  }

  /** One row of the opportunities report. */
  datatype ReportEntry = ReportEntry(
    produit: Cell,
    codeSh: Cell,
    alignement: string,
    score: real,
    verdict: string)

  /** The report entry for a scored product, with the HS code of the row it was scored from. */
  function EntryFor(selected: Cell, row: Row, alignment: int, probability: real): (e: ReportEntry)
    requires HS_CODE in row
    ensures e.produit == selected && e.codeSh == row[HS_CODE] && e.score == probability
    ensures e.alignement == YES <==> alignment == 1
    ensures e.alignement == NO <==> alignment != 1
    ensures e.verdict == HIGH <==> probability > 0.5
    ensures e.verdict == LOW <==> probability <= 0.5
  {
    ReportEntry(selected, row[HS_CODE], AlignmentLabel(alignment), probability, Verdict(probability))
  }
}
