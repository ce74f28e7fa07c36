# ExportScore session and scoring model

ExportScore is a Streamlit dashboard that scores candidate export products
for Morocco with a pre-trained classifier. The user uploads a training
workbook and a prediction workbook on a configuration page. The app then
loads the model and the opportunities sheet and switches to a dashboard.
There the user filters the products by HS code, picks one, and states
whether it is strategically aligned (0 or 1). The app builds the
six-feature input, asks the classifier for the probability of success,
shows a verdict ("ÉLEVÉ" above one half, "FAIBLE" otherwise), and can
append the scored product to a report.

This project models the app's session state machine and its scoring
pipeline:

- `wrappers.dfy`: `Option` and `Result`.
- `cells.dfy` (module `Cells`): the spreadsheet cell values the app
  observes. It covers their text under `astype(str)`, their truth value,
  pandas `==` (NaN equals nothing, integers and floats compare by value)
  and Python's substring test.
- `scoring.dfy` (module `Scoring`): the pure pipeline. It covers the HS
  filter, the product list and select box, the lookup of the first row
  carrying the selected name, feature assembly in `FEATURES_NAMES` order
  with the session's alignment overriding the record's, the verdict, the
  alignment label and the report entry.
- `session.dfy` (module `App`): `st.session_state` as a class `Session`.
  It keeps the set of keys present and one field per key. Its methods are
  the per-rerun initialisation, `train_and_load`, the configuration
  submit, product selection, the alignment buttons, adding to the report
  and the reset that deletes every key and re-initialises.

Facts about app.py that shape the model:
- app.py has no missing-value form and no in-place repair of records. A
  record without one of the feature columns makes the projection on
  `FEATURES_NAMES` fail. That failure is modelled as the `MissingFeatures`
  outcome, which lists the absent names in feature order. NaN values are
  passed to the classifier unchanged.
- The report labels are "OUI"/"NON" and "ÉLEVÉ"/"FAIBLE".
- Nothing in app.py bounds the probability to [0, 1].

## Model

| member | source | states |
|---|---|---|
| `Cells.NatText` | app.py:117 | the text of an integer HS code is its decimal digits, without leading zeros |
| `Cells.NatTextValue` | app.py:117 | reading that decimal text back gives the integer (no two codes share a text) |
| `Cells.ContainsIff` | app.py:117 | the substring test holds iff the query occurs at some position of the code's text |
| `Cells.ContainsEmpty` | app.py:116-117 | the empty query occurs in every code |
| `Cells.PyEqReflexive` | app.py:153 | a name equals itself under pandas `==` exactly when it is not NaN |
| `Scoring.WellFormedKeyed` | app.py:32-35 | a sheet that passed the column check gives every row a product name and an HS code |
| `Scoring.FilterByCode` | app.py:117 | the filtered rows are rows of the sheet whose HS code contains the query, never more than the sheet |
| `Scoring.HsFilter` | app.py:114-118 | the candidate rows keep both identifier columns |
| `Scoring.FilterByCodeComplete` | app.py:117 | a row is kept iff it is in the sheet and its HS code contains the query |
| `Scoring.FilterByCodeAppend` | app.py:117 | filtering preserves order: the filter of a concatenation is the concatenation of the filters |
| `Scoring.FilterByCodeEmptyQuery` | app.py:116-117 | filtering with the empty query returns the sheet unchanged |
| `Scoring.HsFilterSpec` | app.py:114-118 | the HS filter is the order-preserving selection of matching rows, and an empty query yields every row |
| `Scoring.ProductList` | app.py:119 | the product options are the candidates' `Produit` values, one per row, in order |
| `Scoring.Selectbox` | app.py:120 | the selection is one of the options, and it is absent exactly when there are none |
| `Scoring.FirstMatch` | app.py:153 | finds the first row whose name equals the selection, or shows that no row does |
| `Scoring.NanMatchesNothing` | app.py:153 | a NaN product name matches no row |
| `Scoring.SelectionScorable` | app.py:145-153 | a product picked from a non-empty list can be scored iff its name is neither NaN nor falsy |
| `Scoring.MissingFrom` | app.py:157 | lists exactly the feature names absent from the input, in the order of `FEATURES_NAMES` |
| `Scoring.Assemble` | app.py:153-157 | succeeds iff the five record features exist; then six values in `FEATURES_NAMES` order, five from the record and the last equal to the session alignment; otherwise the non-empty list of missing names, in feature order |
| `Scoring.MissingFeatureNames` | app.py:60-67 | since the alignment is always supplied, only the first five feature names can be missing |
| `Scoring.AlignmentOverride` | app.py:155-156 | the alignment stored in the record has no effect on the assembled features |
| `Scoring.Evaluate` | app.py:145-159 | no prediction while the alignment is unset; otherwise the first matching candidate is assembled and scored by the classifier |
| `Scoring.Verdict` | app.py:177-180 | "ÉLEVÉ" iff the probability is strictly above 0.5, "FAIBLE" otherwise (0.5 itself is "FAIBLE") |
| `Scoring.AlignmentLabel` | app.py:186 | "OUI" iff the alignment is 1, "NON" otherwise |
| `Scoring.EntryFor` | app.py:183-189 | the entry holds the selected name, the HS code of the scored row, the probability, "OUI" if alignment is 1 and "NON" otherwise, "ÉLEVÉ" if probability > 0.5 and "FAIBLE" otherwise |
| `App.Session.constructor` | app.py:45 | a new browser session has no keys |
| `App.Session.Initialise` | app.py:45-56 | absent keys get page config, no model, no sheet, no selection, no alignment and an empty report; present keys keep their values, so a rerun changes nothing |
| `App.Session.TrainAndLoad` | app.py:23-41 | succeeds iff the model loads, the sheet parses and it has `Produit` and `CODE SH`; the model is stored once loaded and the sheet once parsed, even when a later step fails; the page stays config |
| `App.Session.SubmitConfig` | app.py:90-100 | the page becomes dashboard iff both files are present and loading succeeded; with a file missing nothing changes |
| `App.Session.Candidates` | app.py:114-118 | the candidates are exactly the loaded rows whose HS code contains the query |
| `App.Session.SelectProduct` | app.py:114-120 | only the selection changes, to the picked candidate, or none when no row matches; the loaded sheet is untouched |
| `App.Session.SetAlignment` | app.py:127-130 | only the alignment changes, to 0 or 1 |
| `App.Session.Evaluation` | app.py:145-159 | no prediction while the alignment is unset; a scored row is a loaded row matching the query, scored on six features ending with the alignment |
| `App.Session.AddToReport` | app.py:182-190 | appends exactly one entry at the end; earlier entries and all other fields stay, so adding twice gives two entries |
| `App.Session.ClearKeys` | app.py:137-138 | every key is deleted |
| `App.Session.Reset` | app.py:136-139 | after deleting every key and re-initialising, every field is back at its initial value |

## Left out

- Rendering: page layout, columns, containers, markdown, toasts, images, tables, the gauge, the details table and the download button. The gauge and the details table are display only.
- `time.sleep` and `st.rerun`: these are timing and control plumbing. A rerun is modelled as the next call of `Initialise`.
- `joblib.load` and `predict_proba` are foreign code. The loaded model is a parameter (`None` when loading the artifact fails, whether the file is absent or cannot be unpickled). The classifier is an uninterpreted function from the six cells to a real. Any exception it would raise on non-numeric cells is not modelled.
- `pd.read_excel` is external. Its result is a parameter: a well-formed sheet, or a failure that carries the exception text. The error messages shown with `st.error` and `st.warning` are not modelled.
- `convert_df_to_excel` and the report export are spreadsheet I/O.
- The training file's contents: the code only tests that the file is present.
- The Streamlit widget keys (`train_uploader`, `predict_uploader`, `align_no`, `align_yes`) are also deleted by a reset. They carry no app state, so they are not modelled.
- `Cells.AsText`: a float cell carries the text Python prints for it. Float-to-text conversion is not modelled.
- `Scoring.FilterByCode`: treats the query as literal text. pandas `str.contains` reads it as a regular expression, so the model agrees only for queries without regex metacharacters, such as digits.
- `Scoring.EntryFor`: keeps the probability itself under SCORE FINAL, not its one-decimal percentage text.
- `Scoring.Evaluate`: the crashes are preconditions, not modelled exceptions. `SelectionShown` covers the lookup of the HS code at app.py:146: a truthy selection that no candidate carries, such as a NaN name, fails there whether or not the alignment is set. `ScoringDefined` covers the scoring branch: `iloc[0]` needs a matching candidate at app.py:153, and a falsy selection leaves `code_sh_selected` undefined.
- Manual entry of a product and the form that fills missing values are not part of this model. They do not appear in app.py.

