/**
  The records the dashboard page reads: a city (a police-resort area, "polres")
  with its area and target figures and the organisations tracked in it, and a
  company whose achievements are optional maps from reporting period to value.
  Only the fields the page's folds and handlers read are kept.
 */
module DashboardTypes {

  datatype Option<+T> = None | Some(value: T)

  /** An achievement record: reporting-period label (such as "III") to attained value. */
  type AchievementRecord = map<string, real>

  /** The reporting period whose values the summary cards add up. */
  const Period: string := "III"

  /** The three achievement categories a company may report. */
  datatype Category = Monokultur | TumpangSari | Csr

  datatype Company = Company(
    id: int,
    name: string,
    monokulturAchievements: Option<AchievementRecord>,
    tumpangSariAchievements: Option<AchievementRecord>,
    csrAchievements: Option<AchievementRecord>)
  {
    /** The (optional) record this company keeps for category `cat`. */
    function Achievements(cat: Category): Option<AchievementRecord>
    {
      match cat
      case Monokultur => monokulturAchievements
      case TumpangSari => tumpangSariAchievements
      case Csr => csrAchievements
    }

    /** This company with the record of category `cat` replaced by `rec`. */
    function WithAchievements(cat: Category, rec: Option<AchievementRecord>): (c: Company)
      ensures c.Achievements(cat) == rec
      ensures forall other :: other != cat ==> c.Achievements(other) == Achievements(other)
      ensures c.id == id && c.name == name
    {
      match cat
      case Monokultur => this.(monokulturAchievements := rec)
      case TumpangSari => this.(tumpangSariAchievements := rec)
      case Csr => this.(csrAchievements := rec)
    }
  }

  datatype City = City(
    id: int,
    nama: string,
    totalArea: real,
    otherTotalArea: real,
    monokulturTarget: real,
    tumpangSariTarget: real,
    totalTarget: real,
    companies: seq<Company>,
    otherCompanies: Option<seq<Company>>)
}
