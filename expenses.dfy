/** Expense rows and their four generators (SelectionDataSimulation.py:106-120). */
module Expenses {
  import opened Dates
  import opened Openings

  datatype Category = JobBoardListing | PersonnelAssessment | OnsiteTravel | InternalReferralBonus
  {
    function Label(): string
    {
      match this
      case JobBoardListing => "Job board listing"
      case PersonnelAssessment => "Personnel assessment"
      case OnsiteTravel => "Onsite travel"
      case InternalReferralBonus => "Internal referral bonus"
    }
  }

  /** Distinct categories have distinct labels, so a test on the label text is a test on the category. */
  lemma CategoryLabelInjective()
    ensures forall c: Category, c': Category :: c.Label() == c'.Label() ==> c == c'
  {
  }

  const JOB_BOARD_FEE := 200
  const ASSESSMENT_FEE := 50
  const REFERRAL_BONUS := 500
  const MIN_TRAVEL := 30
  const MAX_TRAVEL := 500

  /** An expense row: [role_id, category, amount, sortDate]; the sort key is the opening's post date. */
  datatype Expense = Expense(roleId: OpeningId, category: Category, amount: int, sortKey: Day)

  /** The amount each category carries: three fixed fees and a travel cost drawn from [30, 500]. */
  predicate ValidAmount(e: Expense)
  {
    match e.category
    case JobBoardListing => e.amount == JOB_BOARD_FEE
    case PersonnelAssessment => e.amount == ASSESSMENT_FEE
    case OnsiteTravel => MIN_TRAVEL <= e.amount <= MAX_TRAVEL
    case InternalReferralBonus => e.amount == REFERRAL_BONUS
  }

  function JobBoardExpense(job: Opening): (e: Expense)
    ensures e.category == JobBoardListing && ValidAmount(e) && e.amount == 200
    ensures e.roleId == job.id && e.sortKey == job.postDate
  {
    Expense(job.id, JobBoardListing, JOB_BOARD_FEE, job.postDate)
  }

  function AssessmentExpense(job: Opening): (e: Expense)
    ensures e.category == PersonnelAssessment && ValidAmount(e) && e.amount == 50
    ensures e.roleId == job.id && e.sortKey == job.postDate
  {
    Expense(job.id, PersonnelAssessment, ASSESSMENT_FEE, job.postDate)
  }

  /** `generate_expense_onsite_travel` once `randint(30, 500)` has drawn `amount`. */
  function OnsiteTravelExpense(job: Opening, amount: int): (e: Expense)
    requires MIN_TRAVEL <= amount <= MAX_TRAVEL
    ensures e.category == OnsiteTravel && ValidAmount(e) && e.amount == amount && 30 <= e.amount <= 500
    ensures e.roleId == job.id && e.sortKey == job.postDate
  {
    Expense(job.id, OnsiteTravel, amount, job.postDate)
  }

  function ReferralExpense(job: Opening): (e: Expense)
    ensures e.category == InternalReferralBonus && ValidAmount(e) && e.amount == 500
    ensures e.roleId == job.id && e.sortKey == job.postDate
  {
    Expense(job.id, InternalReferralBonus, REFERRAL_BONUS, job.postDate)
  }
}
