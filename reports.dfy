/**
 * The `/filtrar-pacientes` endpoint: a query parameter names one of eight reports, and
 * every other value selects the plain listing of the patients-with-doctors view.
 */
module Reports {
  import opened Http

  /**
   * The queries the endpoint can run. The aggregates are computed by the database;
   * the model only records which query is chosen.
   */
  datatype Report =
    | AverageVitals          // AVG of age, weight, height and heart rate over all patients
    | SortedByPatientName    // the view ordered by patient name
    | SortedByDoctorName     // the view joined with doctors, ordered by doctor name
    | AverageWeightPerDoctor
    | AverageHeightPerDoctor
    | AverageHeartRatePerDoctor
    | AverageAgePerDoctor
    | PatientsPerDoctor      // COUNT of patients per doctor
    | AllPatients            // the view unfiltered

  /** The switch on the filter key, with its `'all'` and default cases. */
  function Select(key: string): Report
  {
    match key
    case "avg_all" => AverageVitals
    case "a_sort" => SortedByPatientName
    case "medic_alph" => SortedByDoctorName
    case "avg_weight" => AverageWeightPerDoctor
    case "avg_height" => AverageHeightPerDoctor
    case "avg_f_c" => AverageHeartRatePerDoctor
    case "avg_age" => AverageAgePerDoctor
    case "total_patients" => PatientsPerDoctor
    case _ => AllPatients
  }

  /**
   * `req.query.filter || 'all'`, then the switch: a named key selects its own report,
   * and a missing, empty or unknown filter selects the plain listing.
   */
  function Dispatch(filter: Param): (r: Report)
    ensures r == AllPatients <==> !Truthy(filter) || filter.text !in NamedKeys
    ensures r != AllPatients ==> KeyOf(r) == filter.text
  {
    Select(OrElse(filter, "all"))
  }

  /** The key that names each report. */
  function KeyOf(r: Report): string
  {
    match r
    case AverageVitals => "avg_all"
    case SortedByPatientName => "a_sort"
    case SortedByDoctorName => "medic_alph"
    case AverageWeightPerDoctor => "avg_weight"
    case AverageHeightPerDoctor => "avg_height"
    case AverageHeartRatePerDoctor => "avg_f_c"
    case AverageAgePerDoctor => "avg_age"
    case PatientsPerDoctor => "total_patients"
    case AllPatients => "all"
  }

  /** The eight keys the switch names before its `'all'`/default case. */
  const NamedKeys: set<string> :=
    {"avg_all", "a_sort", "medic_alph", "avg_weight", "avg_height", "avg_f_c", "avg_age", "total_patients"}

  /** Every report is selected by its own key: the switch has no unreachable case. */
  lemma SelectKeyOf(r: Report)
    ensures Select(KeyOf(r)) == r
    ensures r != AllPatients <==> KeyOf(r) in NamedKeys
  {
  }

  /** A key outside the eight named ones selects the same query as `'all'`. */
  lemma UnknownKeyFallsBack(key: string)
    requires key !in NamedKeys
    ensures Select(key) == Select("all") == AllPatients
  {
  }
}
