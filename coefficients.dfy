/** The static coefficient table of the estimator and the user's selection.
    Every amount is in euros per year. */
module Coefficients {

  /** One category of the table: a choice label mapped to its amount. */
  type Category = map<string, int>

  datatype Table = Table(
    base: int,
    seniority: Category,
    location: Category,
    industry: Category,
    skills: Category)

  /** The form state: three single choices and the selected skills in the
      order they were picked. */
  datatype Selection = Selection(
    seniority: string,
    location: string,
    industry: string,
    skills: seq<string>)

  const BASE_SALARY: int := 65000

  /** The hand-authored table the estimator uses. */
  const SalaryTable: Table := Table(
    BASE_SALARY,
    map["Intern" := 0, "Junior" := 15000, "Mid-Level" := 35000,
        "Senior" := 65000, "Lead" := 90000, "Director" := 130000],
    map["United States" := 35000, "Europe (Western)" := 5000,
        "Asia" := -10000, "Remote" := 10000],
    map["Retail" := 25000, "Finance" := 20000, "Technology" := 15000,
        "Healthcare" := 12000, "Energy" := 10000, "Manufacturing" := 5000,
        "Education" := -5000],
    map["Scala" := 15000, "Spark" := 10000, "AWS" := 8000,
        "TensorFlow" := 8000, "PyTorch" := 8000, "SQL" := 5000,
        "Python" := 3000, "Machine Learning" := 7000, "Kubernetes" := 9000])

  /** The selection the form starts with and returns to on reset. */
  const DefaultSelection: Selection :=
    Selection("Mid-Level", "United States", "Technology", [])

  /** `coefficients.<category>[key] || 0`: a tolerant lookup in which a
      label missing from the table contributes nothing and never fails. */
  function Lookup(c: Category, key: string): int
  {
    if key in c then c[key] else 0
  }

  /** No skill in the category lowers the estimate. */
  ghost predicate NonNegative(c: Category)
  {
    forall k :: k in c ==> c[k] >= 0
  }

  /** The shipped skill table only ever adds to the estimate. */
  lemma SalaryTableSkillsNonNegative()
    ensures NonNegative(SalaryTable.skills)
  {
  }
}
