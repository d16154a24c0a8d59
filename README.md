# AGRIGEO backend decision logic, modelled in Dafny

AGRIGEO is a Flask/SQLAlchemy backend for farm holdings (exploitations).
This project lifts its decision logic out of the web layer. Database
queries are replaced by plain in-memory sequences of records, and "today"
and "now" become parameters. The model covers:

- the irrigation advisor, which turns current weather, 3-hour forecast
  buckets and a crop into a list of advisories (`irrigation.dfy`);
- the agronomic recommendation engine, which turns soil analyses, climate
  windows and input applications into recommendations
  (`recommandation.dfy`);
- the harvest routes, split in two modules:
  - record creation, the row-by-row import and the partial update with
    their yield derivation (`recoltes.dfy`);
  - harvest statistics and the next-harvest forecast
    (`recoltes_statistiques.dfy`);
- the grouping of weather forecasts by calendar day, and the rainfall
  extraction from weather payloads (`meteo.dfy`);
- the merge of sensor readings into a soil-analysis payload, its
  data-source classification, and the partial update of an analysis
  (`analyses_sols.dfy`);
- the in-memory aggregations of the statistics routes: regional
  comparison, crop breakdown and evolution over time (`statistiques.dfy`);
- the user validator (`validateurs.dfy`);
- the `per_page` clamp of the pagination helper (`pagination.dfy`).

`common.dfy` holds what these modules share:

- the optional and JSON-like value types;
- Python truthiness;
- sums of reals and lower-casing;
- the first index of a maximum.

Quantities are reals. The modules mirror the source's imperative
structure. Each advisory or recommendation step is a method in the
source's order, proved equal to a specification function. About those
functions the lemmas state what the code promises:

- exclusivity of the deficit advisory;
- the exact firing condition of every advisory and recommendation;
- 1 to 4 irrigation advisories, in a fixed order;
- the fallback appears exactly when nothing else does;
- import accounting;
- statistics bounds;
- percentage shares summing to 100.

Harvest quantities are sorted in place on an array by an insertion sort,
proved sorted and a permutation. The records whose fields the routes
assign one by one (a harvest, a soil analysis) are classes whose update
methods are proved against pure update functions.

Some behaviour of the code, proved as written, is worth knowing:

- The computed yield takes precedence over a supplied `rendement`
  (`Recoltes.RendementPriorite`).
- The harvest forecast can never be "bonne" or "mauvaise"
  (`StatistiquesRecoltes.PrevisionToujoursMoyenne`). The trend `(q[0] −
  q[n−1])/n` times 1.2 always stays within one standard deviation of the
  mean. So twelve steadily rising harvests still give "moyenne"
  (`StatistiquesRecoltes.ScenarioHausseReguliere`).
- The irrigation test at `backend/tests/test_irrigation_service.py:11-33`
  expects a high-priority advisory. With its data the code yields the
  low-priority "not necessary" advisory (`Irrigation.ScenarioCinqZeroZero`).
- The nutrient averages divide by zero when none of the first three
  analyses has a truthy value for a nutrient. The model returns an
  explicit `DivisionParZero` result (`Recommandation.DivisionParZeroSsi`).
- Soil recommendations share one mutable parameter dictionary. A pH
  recommendation therefore ends up carrying the nutrient averages added
  after it (`Recommandation.ParametresSolPortes`).
- A soil analysis built from sensor readings is classified "sensor" only
  when every measurement field is 0 or null after the merge. A reading that
  fills a field with a non-zero value makes the source "mixed"
  (`AnalysesSols.SourceClassee`, `AnalysesSols.ScenarioCapteurSeul`).

## Model

| member | source | states |
|---|---|---|
| Irrigation.BesoinEau | backend/services/irrigation_service.py:50-62 | the daily need is the table value for the lower-cased crop, else 4.0 (also for no crop); always between 3 and 8 |
| Irrigation.BesoinEauSansCasse | backend/services/irrigation_service.py:61-62 | the need does not depend on the crop name's letter case |
| Irrigation.ParametresBase | backend/services/irrigation_service.py:27-47 | the base parameters carry the need, the projected total, the deficit, the 24 h forecast, the date and the current readings |
| Irrigation.AnalyserConditions | backend/services/irrigation_service.py:27-69 | the computed total, need and deficit equal their specification functions, and deficit = need − total |
| Irrigation.GenerateConseilsIrrigation | backend/services/irrigation_service.py:8-164 | the advisories appended step by step equal the specification list `ConseilsIrrigation` |
| Irrigation.ConseilsIrrigationPromesses | backend/services/irrigation_service.py:72-164 | 1 to 4 advisories in a fixed order; urgent iff deficit > 5, recommended iff 2 < deficit ≤ 5, not-necessary iff deficit ≤ 2 and total ≥ need; heat, dry air and 48 h planning each iff their own condition; the fallback iff nothing else, and then alone |
| Irrigation.ConseilsTraceables | backend/services/irrigation_service.py:27-32 | every advisory's parameters contain the need, the projected total and the deficit |
| Irrigation.ConformeTraceable | backend/services/irrigation_service.py:27-150 | an advisory built from the conditions, including the 48 h one with its extra keys, keeps the three traced values |
| Irrigation.ConseilsDePromesses | backend/services/irrigation_service.py:72-162 | the assembled list from any weather balance meets all the promises above |
| Irrigation.EtapeDeficitTenue | backend/services/irrigation_service.py:72-103 | the deficit step emits at most one advisory, chosen by the exclusive thresholds |
| Irrigation.EtapesUniquesTenues | backend/services/irrigation_service.py:106-150 | the heat, dry-air and planning steps each emit one advisory exactly when their condition holds |
| Irrigation.SommePluieAppend | backend/services/irrigation_service.py:35-39 | the forecast rainfall sum is additive over concatenation |
| Irrigation.SommePluieNonNegative | backend/services/irrigation_service.py:35-39 | non-negative rainfalls have a non-negative sum |
| Irrigation.Pluie48hDecomposee | backend/services/irrigation_service.py:130-133 | the 48 h sum is the 24 h sum plus buckets 8 to 15 |
| Irrigation.Deficit48hBorne | backend/services/irrigation_service.py:130-134 | the 48 h deficit never exceeds twice the daily need |
| Irrigation.PlanificationCulturesExigeantes | backend/services/irrigation_service.py:130-150 | only rice and cotton can trigger the 48 h planning advisory |
| Irrigation.ScenarioCinqZeroZero | backend/tests/test_irrigation_service.py:11-33 | with 15 mm of forecast rain, maize yields the not-necessary advisory and no high priority |
| Irrigation.ScenarioChaleur | backend/tests/test_irrigation_service.py:57-75 | 38 °C yields the heat advisory; humidity exactly 40 does not fire |
| Irrigation.ScenarioRizMais | backend/tests/test_irrigation_service.py:115-134 | with no rain, rice is urgent and maize (deficit exactly 5) is recommended |
| Meteo.PluieExtraite | backend/services/meteo_service.py:146 | current rain is the 1 h value if truthy, else the 3 h value if truthy, else 0; forecast rain is the 3 h value or 0 |
| Meteo.GrouperParJour | backend/services/meteo_service.py:249-319 | the grouping loop produces the specification `Regroupement` |
| Meteo.Grouper | backend/services/meteo_service.py:263-272 | the day buckets have exactly the dated days as keys, each holding that day's entries in input order |
| Meteo.ChoisirReference | backend/services/meteo_service.py:286-297 | the search loop picks the specified reference entry |
| Meteo.ReferenceChoisie | backend/services/meteo_service.py:286-297 | the reference is the first entry with hour in 10..14, else the middle entry |
| Meteo.UnParJour | backend/services/meteo_service.py:276-303 | one record per distinct dated day, in strictly ascending day order |
| Meteo.RegroupementVide | backend/services/meteo_service.py:259-260 | no forecasts give no days |
| Meteo.SansDateIgnore | backend/services/meteo_service.py:265-270 | an entry without a usable date changes no group |
| Meteo.JourneeDuJour | backend/services/meteo_service.py:274-317 | the k-th record summarises the k-th day's entries with its reference |
| Meteo.ResumeTemperatures | backend/services/meteo_service.py:281-306 | temperature is the maximum of known temperatures; min and max come from their own lists, else from the temperatures, else from the reference |
| Meteo.TemperaturesRenseignees | backend/services/meteo_service.py:281 | the temperature list is exactly the known temperatures |
| Meteo.PluieAjout | backend/services/meteo_service.py:300 | the daily rain sum adds each entry's rain, missing counted as 0 |
| Meteo.Croissants | backend/services/meteo_service.py:276 | the sorted days are the day set in strictly increasing order |
| Meteo.Maximum | backend/services/meteo_service.py:304 | the maximum belongs to the list and bounds it |
| Meteo.Minimum | backend/services/meteo_service.py:305 | the minimum belongs to the list and bounds it |
| AnalysesSols.CibleAlias | backend/routes/analyses_sols.py:82-96 | a lower-cased sensor type maps to a field iff it is one of that field's aliases |
| AnalysesSols.AppliquerLecture | backend/routes/analyses_sols.py:82-96 | one reading is applied as the specification `Appliquer` says |
| AnalysesSols.ParcourirLectures | backend/routes/analyses_sols.py:73-96 | the loop succeeds iff no sensor type is null, and then yields the merged payload and the truthy ids |
| AnalysesSols.CreerAnalyse | backend/routes/analyses_sols.py:66-117 | the creation route equals the specification `Creation` |
| AnalysesSols.AppliquerNeutre | backend/routes/analyses_sols.py:82-96 | a reading with no value or an unknown type changes nothing |
| AnalysesSols.FusionConserve | backend/routes/analyses_sols.py:83-96 | the merge never touches a field outside the five, nor one already set |
| AnalysesSols.FusionRemplit | backend/routes/analyses_sols.py:83-96 | an empty field receives the first matching reading's value, and stays empty without one |
| AnalysesSols.IdentifiantsExacts | backend/routes/analyses_sols.py:78-79 | the id list holds exactly the truthy sensor ids, at most one per reading |
| AnalysesSols.SourceClassee | backend/routes/analyses_sols.py:66-100 | "manual" iff there is no sensor data or an empty list; "sensor" iff readings exist and no measurement field is truthy; otherwise "mixed" |
| AnalysesSols.SaisieManuelleMixte | backend/routes/analyses_sols.py:98-100 | with readings, one truthy manual measurement makes the source "mixed" |
| AnalysesSols.ErreurSsiTypeNul | backend/routes/analyses_sols.py:73-96 | the sensor loop raises (a server error) iff some reading has a null type |
| AnalysesSols.ScenarioCapteurSeul | backend/routes/analyses_sols.py:68-117 | a lone "PH" reading of 6.5 fills the pH, and the source is "mixed" because the filled pH is truthy |
| AnalysesSols.ScenarioLectureNulle | backend/routes/analyses_sols.py:78-96 | a potassium reading of 0 is stored, and a reading without an id adds no id |
| AnalysesSols.SeulesClesPresentes | backend/routes/analyses_sols.py:158-173 | an update changes only the keys present in the payload |
| AnalysesSols.ModifieeIdempotente | backend/routes/analyses_sols.py:158-173 | applying the same update twice equals applying it once |
| AnalysesSols.ModifieeComposee | backend/routes/analyses_sols.py:158-173 | two successive updates equal one update with their merged keys, the later winning |
| AnalysesSols.FicheAnalyse.MettreAJour | backend/routes/analyses_sols.py:158-173 | the record's fields are assigned as the update function says, and nothing changes when a null date is rejected |
| Recoltes.RendementPriorite | backend/routes/recoltes.py:67-81 | with a positive area and non-zero quantity the computed yield wins and multiplies back to the quantity; otherwise the supplied yield is kept |
| Recoltes.Creer | backend/routes/recoltes.py:58-81 | incomplete payloads and unknown holdings are refused; a created record keeps the quantity and area, the default unit "kg", and a yield consistent with a positive area |
| Recoltes.ImporterRecoltes | backend/routes/recoltes.py:111-151 | the import loop equals the specification `ImportDe`; a missing or empty list is an invalid format |
| Recoltes.ImportComptes | backend/routes/recoltes.py:117-151 | imported + errors = rows, and one error per rejected row |
| Recoltes.ErreursNumerotees | backend/routes/recoltes.py:117-151 | errors are numbered from 1, strictly increasing, and name exactly the rejected rows with their reason |
| Recoltes.ImporteesConcat | backend/routes/recoltes.py:117-148 | the import is compositional over consecutive row blocks |
| Recoltes.ImportCommeCreation | backend/routes/recoltes.py:119-148 | an accepted row becomes the same record as the creation route builds, in row position |
| Recoltes.RecolteSeulesClesPresentes | backend/routes/recoltes.py:322-340 | an update changes only the keys present in the payload, and never the holding, plot, unit or climate notes |
| Recoltes.RendementApresModification | backend/routes/recoltes.py:341-343 | after an update the yield is quantity/area iff the resulting area is positive, else the previous yield |
| Recoltes.RecolteModifieeIdempotente | backend/routes/recoltes.py:322-343 | applying the same update twice equals applying it once |
| Recoltes.FicheRecolte.MettreAJour | backend/routes/recoltes.py:322-343 | the record's fields become the updated record, and nothing changes when a required key is null |
| Recoltes.FicheRecolte.Affecter | backend/routes/recoltes.py:324-343 | the field-by-field assignment equals the update function |
| StatistiquesRecoltes.Trier | backend/routes/recoltes.py:199 | the in-place sort leaves the array sorted and a permutation of its old contents |
| StatistiquesRecoltes.Tri | backend/routes/recoltes.py:199 | the reference sort is sorted and a permutation |
| StatistiquesRecoltes.TriUnique | backend/routes/recoltes.py:199 | two sorted permutations of the same values are equal, so the in-place sort and the reference sort agree |
| StatistiquesRecoltes.Statistiques | backend/routes/recoltes.py:188-214 | the statistics method equals the specification `StatsDe` |
| StatistiquesRecoltes.StatsVides | backend/routes/recoltes.py:188-196 | no records give all zeros with a count of 0 |
| StatistiquesRecoltes.StatsBornes | backend/routes/recoltes.py:198-214 | min and max belong to the quantities and bound them; the mean is sum/n; min ≤ median ≤ max; min ≤ mean ≤ max; variance ≥ 0 |
| StatistiquesRecoltes.FiguresOrdonnees | backend/routes/recoltes.py:201-209 | over a sorted list the median and the mean lie between the first and last values |
| StatistiquesRecoltes.MoyenneDe | backend/routes/recoltes.py:255 | mean × n equals the sum |
| StatistiquesRecoltes.VarianceAutour | backend/routes/recoltes.py:213 | the population variance is non-negative and times n equals the sum of squared deviations |
| StatistiquesRecoltes.ComparaisonEcartType | backend/routes/recoltes.py:265-276 | the squared comparison used by the model is equivalent to comparing with mean ± standard deviation |
| StatistiquesRecoltes.Tendance | backend/routes/recoltes.py:256 | trend × n = first − last for more than one record, else 0 |
| StatistiquesRecoltes.PrevisionSur | backend/routes/recoltes.py:254-283 | predicted = mean + 1.2 × trend; the label is one of the three with 70/30, 30/70 or 50/50; the factors are attached |
| StatistiquesRecoltes.PrevisionDe | backend/routes/recoltes.py:240-283 | the probabilities sum to 100; factors exist iff at least 3 records, and then count 3 to 12 |
| StatistiquesRecoltes.PrevisionInsuffisante | backend/routes/recoltes.py:245-252 | fewer than 3 records give 0, 50/50, "moyenne" and no factors |
| StatistiquesRecoltes.TendanceContenue | backend/routes/recoltes.py:256-262 | the trend adjustment squared never exceeds the variance |
| StatistiquesRecoltes.PrevisionToujoursMoyenne | backend/routes/recoltes.py:265-276 | every forecast is "moyenne" with 50/50 |
| StatistiquesRecoltes.ScenarioHausseReguliere | backend/routes/recoltes.py:254-276 | twelve harvests rising steadily still give "moyenne" |
| Recommandation.GenerateRecommandations | backend/services/recommandation_service.py:12-189 | the rule-by-rule appends equal the specification `RecommandationsDe` |
| Recommandation.RecommandationsSol | backend/services/recommandation_service.py:37-120 | the soil section, with its shared parameter map, equals `RecosSol` |
| Recommandation.RecommandationsClimat | backend/services/recommandation_service.py:122-148 | the climate section equals `RecosClimat` |
| Recommandation.RecommandationIntrants | backend/services/recommandation_service.py:150-177 | the input-staleness section equals `RecoIntrants` |
| Recommandation.DivisionParZeroSsi | backend/services/recommandation_service.py:69-74 | an unknown holding gives no recommendations; otherwise the averages fail iff there is history and some nutrient has no truthy value among the first three analyses |
| Recommandation.SujetSsiDeclenche | backend/services/recommandation_service.py:47-187 | each recommendation appears iff its rule fires: pH < 6 / > 7.5 on the latest analysis, N < 20 (average or latest), P < 15 and K < 150 only with history, rainfall < 50 / > 300 on the latest window, inputs older than 90 days, the fallback iff no recommendation, no analysis and no climate data |
| Recommandation.SujetBrutSsi | backend/services/recommandation_service.py:47-177 | before the fallback, each subject is present iff its rule fires |
| Recommandation.RecommandationsOrdonnees | backend/services/recommandation_service.py:47-187 | at most 6 recommendations, in rule order, each with its rule's type and priority |
| Recommandation.AssembleesOrdonnees | backend/services/recommandation_service.py:47-177 | the soil, climate and input subjects come in rule order, at most 6 |
| Recommandation.SujetsRetournes | backend/services/recommandation_service.py:47-177 | the assembled recommendations carry their subjects in order and the type and priority of each rule |
| Recommandation.SujetsBruts | backend/services/recommandation_service.py:47-177 | a subject is emitted iff its own section emits it |
| Recommandation.InformationSeule | backend/services/recommandation_service.py:180-187 | with no analysis, no climate data and no stale input the only result is the information recommendation, with empty parameters and low priority |
| Recommandation.SujetsPhSpec | backend/services/recommandation_service.py:48-66 | at most one pH recommendation: acid iff pH < 6, alkaline iff pH > 7.5 |
| Recommandation.SujetsSolPh | backend/services/recommandation_service.py:47-66 | the pH rule reads only the latest analysis |
| Recommandation.SujetsSolCarences | backend/services/recommandation_service.py:69-120 | N, P and K deficiencies appear iff their thresholds hold on the averages (with history) or N on the latest value (single analysis) |
| Recommandation.SujetsCarencesSujets | backend/services/recommandation_service.py:80-109 | each nutrient recommendation fires iff its average is below its threshold |
| Recommandation.SujetsSolForme | backend/services/recommandation_service.py:47-120 | at most 4 soil recommendations, in rule order; none without analyses |
| Recommandation.SujetsClimatSpec | backend/services/recommandation_service.py:122-148 | at most one climate recommendation: drought iff rainfall < 50, excess iff > 300, on the latest window |
| Recommandation.SujetsIntrantsSpec | backend/services/recommandation_service.py:150-177 | the review recommendation fires iff the latest of the ten most recent inputs is older than 90 days |
| Recommandation.RecoIntrantsParametres | backend/services/recommandation_service.py:159-177 | its parameters are exactly the last input's type, its date and the elapsed days (> 90) |
| Recommandation.ParametresSolPortes | backend/services/recommandation_service.py:37-78 | every soil recommendation carries the latest analysis' pH, N, P, K and sample date; with history it also carries the three averages, and only then |
| Recommandation.ParametresFinalPortes | backend/services/recommandation_service.py:37-78 | the shared soil map has exactly the five snapshot keys with the analysis' values, plus the three average keys with their values iff there is history |
| Recommandation.SolCles | backend/services/recommandation_service.py:38-44 | the snapshot has exactly the five keys, holding the analysis' values |
| Recommandation.MoyennesCles | backend/services/recommandation_service.py:76-78 | adding the averages keeps the snapshot values and adds exactly the three average keys with their values |
| Recommandation.Truthy | backend/services/recommandation_service.py:72-74 | only truthy values enter an average |
| Recommandation.TruthyVide | backend/services/recommandation_service.py:72-74 | no value is kept iff none is truthy |
| Recommandation.MoyennesDe | backend/services/recommandation_service.py:72-74 | the averages exist iff every nutrient keeps a value |
| Recommandation.MoyenneBornee | backend/services/recommandation_service.py:72-74 | an average lies between the bounds of its values |
| Recommandation.DernierIntrant | backend/services/recommandation_service.py:159-161 | the last input belongs to the list and has the latest application date |
| Recommandation.ScenarioSolAcide | backend/tests/test_recommandation_service.py:60-81 | pH 5.5 alone yields one high-priority liming recommendation |
| Recommandation.ScenarioAzoteFaible | backend/tests/test_recommandation_service.py:83-105 | one analysis with N = 10 yields one high-priority nitrogen recommendation and nothing for P/K at their thresholds |
| Recommandation.ScenarioPluieFaible | backend/tests/test_recommandation_service.py:107-125 | 30 mm of rainfall yields one high-priority irrigation recommendation |
| Recommandation.ScenarioSansDonnees | backend/tests/test_recommandation_service.py:127-135 | no data yields the information recommendation |
| Statistiques.ComparerRegions | backend/routes/statistiques.py:150-183 | the comparison loops equal the specification `Comparaison` |
| Statistiques.LigneRegion | backend/routes/statistiques.py:153-177 | one region's row equals `LigneDe` |
| Statistiques.MoyenneRegion | backend/routes/statistiques.py:155-158 | mean area × count = total area, and 0 for a region without holdings |
| Statistiques.PourcentagesComplets | backend/routes/statistiques.py:179-183 | the national total is the sum of regional totals; with a positive total each share is area × 100 / total and the shares sum to 100; otherwise every share stays 0 |
| Statistiques.SommePourcentages | backend/routes/statistiques.py:181-183 | shares over a positive national total sum to 100 |
| Statistiques.CompterCultures | backend/routes/statistiques.py:161-164 | the counting loop yields the crops in first-seen order and each crop's number of holdings |
| Statistiques.ClesCulturesMembres | backend/routes/statistiques.py:161-164 | the crop keys are distinct and are exactly the non-empty crops of some holding |
| Statistiques.CulturePrincipaleCaracterisee | backend/routes/statistiques.py:166 | no principal crop iff no holding has a crop; otherwise a crop with maximal count, the first such in insertion order |
| Statistiques.RepartitionCultures | backend/routes/statistiques.py:112-125 | the breakdown loop equals the specification `Repartition` |
| Statistiques.RepartitionComplete | backend/routes/statistiques.py:112-125 | the per-crop counts sum to the holdings with a crop, and the per-crop areas to their area |
| Statistiques.SurfaceAjout | backend/routes/statistiques.py:96-98 | the total area is additive |
| Statistiques.TotalRapporte | backend/routes/statistiques.py:28 | a SQL sum over no rows (None) is reported as 0, otherwise as the sum |
| Statistiques.Dates | backend/routes/statistiques.py:240-248 | 5 dates for "annee", 12 for "mois", 4 otherwise, strictly increasing and before now |
| Statistiques.EvolutionTemporelle | backend/routes/statistiques.py:240-261 | the evolution loop equals the specification `Evolution` |
| Statistiques.EvolutionCroissante | backend/routes/statistiques.py:250-261 | the sample dates increase and the holding counts never decrease nor exceed the number of holdings |
| Validateurs.ValiderUtilisateur | backend/utils/validators.py:4-26 | the checks append exactly the specification `Erreurs` |
| Validateurs.SansErreurSsiValide | backend/utils/validators.py:4-26 | no error iff all four fields pass |
| Validateurs.MessagesParChamp | backend/utils/validators.py:8-24 | each message appears iff its condition holds: missing vs short username, missing vs '@'-less email, missing vs short password, missing role |
| Validateurs.UnMessageParChamp | backend/utils/validators.py:4-26 | at most one message per field, in the order username, email, password, role |
| Validateurs.ScenariosUtilisateur | backend/tests/test_validators.py:16-48 | valid data gives no error; a missing email and a 5-character password give exactly their message |
| Pagination.Borner | backend/routes/utils.py:11-15 | `per_page` ends in [1, 100], unchanged when already inside, and the nearest bound otherwise |
| Pagination.Parametres | backend/routes/utils.py:6-17 | page defaults to 1 and is not clamped; `per_page` defaults to 50 and is clamped |
| Pagination.BornerIdempotent | backend/routes/utils.py:11-15 | clamping twice equals clamping once |
| Pagination.BornerPlusProche | backend/routes/utils.py:11-15 | the clamped value is the closest allowed value |
| Pagination.BornerCroissant | backend/routes/utils.py:11-15 | the clamp is monotone |
| Pagination.PageNonBornee | backend/routes/utils.py:8-17 | pages 0 and −3 pass through unchanged |

## Left out

- Flask request and response handling, JWT identity, `db.session` add, commit and rollback, and `log_action` auditing: not part of the decision logic. SQLAlchemy queries become input sequences, already in the order the queries produce.
- `paginate_query` (backend/routes/utils.py:19-35): it only calls the library's `paginate`.
- HTTP access to the weather API in backend/services/meteo_service.py (API key, current weather, forecast, city lookup): network I/O.
- Wall-clock reads: "today" and "now" are parameters, as day numbers or an opaque stamp.
- ISO date parsing: dates are modelled as day numbers, and forecast stamps as a day and an hour, or no usable date.
- The square root: the model carries the variance instead of `ecart_type`, and compares squares. `StatistiquesRecoltes.ComparaisonEcartType` shows this is equivalent.
- Rounding and the text of descriptions and messages: presentation only.
- Floating point: quantities are exact reals.
- Non-numeric JSON values: a payload field that holds text where a number is expected is not modelled.
- Recoltes.ImporterRecoltes: of the exceptions a row can raise, only an unreadable element is modelled, as one "Ligne n" error.
- AnalysesSols.ErreurSsiTypeNul: it covers only the exception the sensor loop raises. Other exceptions the route turns into a server error are not modelled.
- AnalysesSols.CreerAnalyse: the model assumes the analysis record has `sensor_data`, `sensor_ids` and `data_source` columns. backend/models/analyse_sol.py declares none of them. So, as written, the `AnalyseSol(...)` call at backend/routes/analyses_sols.py:102-117 raises on an unknown keyword, and every request reaching it gets a server error. The model describes what the route computes before that call.
- The validation and holding lookup of `create_analyse` (backend/routes/analyses_sols.py:51-58): the validator it calls is not defined in backend/utils/validators.py, and the lookup is a query, so the model starts after them.
- AnalysesSols.FicheAnalyse.MettreAJour: a null sample date is rejected rather than parsed.
- The `types_intrants` grouping (backend/services/recommandation_service.py:153-157): it is never read.
- The `derniere_pluviometrie` parameter of the irrigation advisor: it is never read.
- The prefecture breakdown (backend/routes/statistiques.py:101-109) and the commune statistics (backend/routes/statistiques.py:195-226): per-prefecture and per-commune holding counts and area sums. They are the same computation as the count and `SurfaceTotale` in `Statistiques.LigneDe`, so they are left out as repetition.
- The national group-by totals of the statistics routes: database aggregation.
- The holding model backend/models/exploitation.py is not part of this model. A holding is assumed to carry an area, a crop, a region and a creation day.
- `validate_exploitation_data`, `validate_analyse_sol_data` and `validate_intrant_data`: the tests import them, but backend/utils/validators.py does not define them.
- The five-window limit on climate data: only the latest window is read.
- The yield fallback in backend/models/recolte.py:40: it duplicates the route logic modelled in `Recoltes`.
- Aliasing of the shared soil parameter dictionary is modelled by its effect: every soil recommendation carries the final map.
- Lower-casing covers ASCII and Latin-1 letters only. Letters outside Latin-1 whose lower-case form is an alias are not recognised; for example, the Kelvin sign (U+212A) lower-cases to 'k', which the source maps to `potassium_k`.
