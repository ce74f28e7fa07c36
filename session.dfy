/**
 * The Streamlit session of the app: the keys it keeps across reruns, the
 * configuration page that loads the model and the opportunities, and the
 * dashboard events (product selection, strategic alignment, reset, adding
 * a scored product to the report).
 */
module App {
  import opened Wrappers
  import opened Cells
  import opened Scoring

  datatype Page = Config | Dashboard

  /** The session-state keys the app reads and writes. */
  datatype Key = PageKey | ModelKey | OpportunitiesKey | SelectedKey | AlignmentKey | ReportKey

  const ALL_KEYS: set<Key> := {PageKey, ModelKey, OpportunitiesKey, SelectedKey, AlignmentKey, ReportKey}

  /**
   * `st.session_state`. `keys` is the set of keys currently present; the
   * field of a key that is absent holds a stale value that is never read.
   */
  class Session {
    var keys: set<Key>
    var page: Page
    var model: Option<Classifier>
    var opportunities: Option<Sheet>
    var selectedProductName: Option<Cell>
    var strategicAlignment: Option<int>
    var report: seq<ReportEntry>

    /**
     * Every key is present; the dashboard is only shown with a model and a
     * sheet that has both identifier columns; the alignment is 0 or 1.
     */
    ghost predicate Valid()
      reads this
    {
      keys == ALL_KEYS &&
      (page == Dashboard ==>
        model.Some? && opportunities.Some? && Keyed(opportunities.value.rows)) &&
      (strategicAlignment.Some? ==> strategicAlignment.value in {0, 1})
    }

    /** The state right after initialisation of an empty session. */
    ghost predicate Initial()
      reads this
    {
      keys == ALL_KEYS && page == Config && model == None && opportunities == None &&
      selectedProductName == None && strategicAlignment == None && report == []
    }

    /** A new browser session: no key is present yet. */
    constructor ()
      ensures keys == {}
    {
      keys := {};
      page := Config;
      model := None;
      opportunities := None;
      selectedProductName := None;
      strategicAlignment := None;
      report := [];
    }

    /**
     * The start of every rerun: each absent key gets its initial value,
     * each present key keeps its value.
     */
    method Initialise()
      requires keys == {} || Valid()
      modifies this
      ensures Valid()
      ensures keys == ALL_KEYS
      ensures page == if PageKey in old(keys) then old(page) else Config
      ensures model == if ModelKey in old(keys) then old(model) else None
      ensures opportunities == if OpportunitiesKey in old(keys) then old(opportunities) else None
      ensures selectedProductName == if SelectedKey in old(keys) then old(selectedProductName) else None
      ensures strategicAlignment == if AlignmentKey in old(keys) then old(strategicAlignment) else None
      ensures report == if ReportKey in old(keys) then old(report) else []
      ensures old(keys) == {} ==> Initial()
      ensures old(keys) == ALL_KEYS ==> unchanged(this)
    {
      if PageKey !in keys {
        page := Config;
        keys := keys + {PageKey};
      }
      if ModelKey !in keys {
        model := None;
        keys := keys + {ModelKey};
      }
      if OpportunitiesKey !in keys {
        opportunities := None;
        keys := keys + {OpportunitiesKey};
      }
      if SelectedKey !in keys {
        selectedProductName := None;
        keys := keys + {SelectedKey};
      }
      if AlignmentKey !in keys {
        strategicAlignment := None;
        keys := keys + {AlignmentKey};
      }
      if ReportKey !in keys {
        report := [];
        keys := keys + {ReportKey};
      }
    }

    /**
     * `train_and_load`: load the model artifact (`None` when the file is
     * absent), then the parsed prediction sheet (`Failure` when reading it
     * raised), then check the identifier columns. A step that fails stops
     * the sequence, but what earlier steps stored stays stored.
     */
    method TrainAndLoad(artifact: Option<Classifier>, parsed: Result<Sheet, string>) returns (success: bool)
      requires Valid() && page == Config
      requires parsed.Success? ==> parsed.value.WellFormed()
      modifies this`model, this`opportunities
      ensures Valid() && page == Config
      ensures success <==> artifact.Some? && parsed.Success? && parsed.value.HasIdColumns()
      ensures model == if artifact.Some? then artifact else old(model)
      ensures opportunities ==
        if artifact.Some? && parsed.Success? then Some(parsed.value) else old(opportunities)
    {
      if artifact.None? {
        return false;
      }
      model := artifact;
      if parsed.Failure? {
        return false;
      }
      opportunities := Some(parsed.value);
      if !parsed.value.HasIdColumns() {
        return false;
      }
      WellFormedKeyed(parsed.value);
      return true;
    }

    /**
     * The "Lancer l'Analyse" button: with both files uploaded, load and,
     * on success, move to the dashboard; otherwise stay on the configuration page.
     */
    method SubmitConfig(trainFile: bool, predictFile: bool, artifact: Option<Classifier>, parsed: Result<Sheet, string>)
      requires Valid() && page == Config
      requires parsed.Success? ==> parsed.value.WellFormed()
      modifies this`page, this`model, this`opportunities
      ensures Valid()
      ensures page == Dashboard <==>
        trainFile && predictFile && artifact.Some? && parsed.Success? && parsed.value.HasIdColumns()
      ensures !(trainFile && predictFile) ==> unchanged(this)
      ensures trainFile && predictFile ==>
        model == (if artifact.Some? then artifact else old(model)) &&
        opportunities == (if artifact.Some? && parsed.Success? then Some(parsed.value) else old(opportunities))
    {
      if trainFile && predictFile {
        var success := TrainAndLoad(artifact, parsed);
        if success {
          page := Dashboard;
        }
      }
    }

    /** The candidate rows of the sidebar for the HS-code query. */
    function Candidates(query: string): (rows: seq<Row>)
      reads this
      requires Valid() && page == Dashboard
      ensures Keyed(rows)
      ensures forall r :: r in rows <==> r in opportunities.value.rows && HsMatches(r, query)
    {
      HsFilterSpec(opportunities.value.rows, [], query);
      HsFilter(opportunities.value.rows, query)
    }

    /**
     * The product select box: the selection becomes the product at position
     * `pick` of the filtered list, or nothing when no row matches. The
     * loaded sheet itself is left as it was.
     */
    method SelectProduct(query: string, pick: nat)
      requires Valid() && page == Dashboard
      requires Candidates(query) != [] ==> pick < |Candidates(query)|
      modifies this`selectedProductName
      ensures Valid()
      ensures selectedProductName == Selectbox(ProductList(Candidates(query)), pick)
      ensures selectedProductName.None? <==> Candidates(query) == []
    {
      selectedProductName := Selectbox(ProductList(Candidates(query)), pick);
    }

    /** The "Non (0)" and "Oui (1)" buttons. */
    method SetAlignment(alignment: int)
      requires Valid() && (alignment == 0 || alignment == 1)
      modifies this`strategicAlignment
      ensures Valid()
      ensures strategicAlignment == Some(alignment)
    {
      strategicAlignment := Some(alignment);
    }

    /** The dashboard body for the current selection and alignment. */
    function Evaluation(query: string): (o: Outcome)
      reads this
      requires Valid() && page == Dashboard
      requires SelectionShown(Candidates(query), selectedProductName)
      requires strategicAlignment.Some? ==> ScoringDefined(Candidates(query), selectedProductName)
      ensures o.AwaitingAlignment? <==> strategicAlignment.None?
      ensures o.Scored? ==> o.row in opportunities.value.rows && HsMatches(o.row, query)
      ensures o.Scored? ==> |o.features| == 6 && o.features[5] == Int(strategicAlignment.value)
      ensures o.Scored? ==> o.probability == model.value.successProbability(o.features)
    {
      Evaluate(Candidates(query), selectedProductName, strategicAlignment, model.value)
    }

    /**
     * "Ajouter au Rapport": append one entry for the scored product at the
     * end of the report; earlier entries stay, and nothing is deduplicated.
     */
    method AddToReport(query: string)
      requires Valid() && page == Dashboard
      requires strategicAlignment.Some? && ScoringDefined(Candidates(query), selectedProductName)
      requires Evaluation(query).Scored?
      modifies this`report
      ensures Valid()
      ensures |report| == |old(report)| + 1 && report[..|old(report)|] == old(report)
      ensures var o := Evaluation(query);
        report[|report| - 1] ==
          EntryFor(selectedProductName.value, o.row, strategicAlignment.value, o.probability)
    {
      var o := Evaluation(query);
      report := report + [EntryFor(selectedProductName.value, o.row, strategicAlignment.value, o.probability)];
    }

    /** Delete every key of the session state, one at a time. */
    method ClearKeys()
      modifies this`keys
      ensures keys == {}
    {
      var pending := keys;
      while pending != {}
        invariant keys == pending
        decreases pending
      {
        var key :| key in pending;
        keys := keys - {key};
        pending := pending - {key};
      }
    }

    /**
     * "Recharger de nouveaux fichiers": delete every key, then rerun, whose
     * initialisation brings every field back to its initial value.
     */
    method Reset()
      modifies this
      ensures Initial() && Valid()
    {
      ClearKeys();
      Initialise();
    }
  }
}
