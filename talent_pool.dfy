/** Talent rows and their three generators (SelectionDataSimulation.py:79-104). */
module TalentPool {
  import opened Wrappers
  import opened Dates
  import opened Openings

  datatype Source = Referral | CompanyWebsite | JobBoard | Other
  {
    function Label(): string
    {
      match this
      case Referral => "Referral"
      case CompanyWebsite => "Company Website"
      case JobBoard => "Job Board"
      case Other => "Other"
    }
  }

  /** Distinct sourcess have distinct labels, so a test on the label text is a test on the source. */
  lemma SourceLabelInjective()
    ensures forall s: Source, s': Source :: s.Label() == s'.Label() ==> s == s'
  {
  }

  datatype Status = Active | Hired | Rejected
  {
    function Label(): string
    {
      match this
      case Active => "active"
      case Hired => "hired"
      case Rejected => "rejected"
    }
  }

  /** Distinct statusess have distinct labels, so a test on the label text is a test on the status. */
  lemma StatusLabelInjective()
    ensures forall s: Status, s': Status :: s.Label() == s'.Label() ==> s == s'
  {
  }

  datatype Stage = ResumeScreening | Interview | KSAOAssessment | Onsite | OfferAndNegotiation
  {
    function Label(): string
    {
      match this
      case ResumeScreening => "Resume Screening"
      case Interview => "Interview"
      case KSAOAssessment => "KSAO Assessment"
      case Onsite => "Onsite"
      case OfferAndNegotiation => "Offer and Negotiation"
    }
  }

  /** Distinct stagess have distinct labels, so a test on the label text is a test on the stage. */
  lemma StageLabelInjective()
    ensures forall s: Stage, s': Stage :: s.Label() == s'.Label() ==> s == s'
  {
  }

  /** The enumerations the weighted choices pick from, in the order of their weight tuples. */
  const SOURCE_CHANNELS: seq<Source> := [Referral, CompanyWebsite, JobBoard, Other]
  const ACTIVE_STAGES: seq<Stage> := [Interview, KSAOAssessment, Onsite, OfferAndNegotiation]
  const REJECTED_STAGES: seq<Stage> := [ResumeScreening, Interview, KSAOAssessment, Onsite, OfferAndNegotiation]

  /** A talent row: [source_channel, status, role_id, rejected_after, sortDate]; the sort key is the opening's post date. */
  datatype Talent = Talent(source: Source, status: Status, roleId: OpeningId, stage: Option<Stage>, sortKey: Day)

  /** Source and stage come from the listed enumerations; a hired row has no stage. */
  predicate WellFormed(t: Talent)
  {
    t.source in SOURCE_CHANNELS
    && (t.status == Active ==> t.stage.Some? && t.stage.value in ACTIVE_STAGES)
    && (t.status == Hired ==> t.stage.None?)
    && (t.status == Rejected ==> t.stage.Some? && t.stage.value in REJECTED_STAGES)
  }

  /** `generate_active_talent`: a candidate still in the pipeline; the two weighted choices landed on the given indices. */
  function GenerateActiveTalent(job: Opening, sourceIndex: nat, stageIndex: nat): (t: Talent)
    requires sourceIndex < |SOURCE_CHANNELS| && stageIndex < |ACTIVE_STAGES|
    ensures WellFormed(t) && t.status == Active && t.stage.value != ResumeScreening
    ensures t.roleId == job.id && t.sortKey == job.postDate
    ensures t.source == SOURCE_CHANNELS[sourceIndex] && t.stage == Some(ACTIVE_STAGES[stageIndex])
  {
    Talent(SOURCE_CHANNELS[sourceIndex], Active, job.id, Some(ACTIVE_STAGES[stageIndex]), job.postDate)
  }

  /** `generate_current_employee`: the hired candidate, with no stage. */
  function GenerateCurrentEmployee(job: Opening, sourceIndex: nat): (t: Talent)
    requires sourceIndex < |SOURCE_CHANNELS|
    ensures WellFormed(t) && t.status == Hired && t.stage == None
    ensures t.roleId == job.id && t.sortKey == job.postDate
    ensures t.source == SOURCE_CHANNELS[sourceIndex]
  {
    Talent(SOURCE_CHANNELS[sourceIndex], Hired, job.id, None, job.postDate)
  }

  /** `generate_rejected_talent`: a candidate passed over at the chosen stage. */
  function GenerateRejectedTalent(job: Opening, sourceIndex: nat, stageIndex: nat): (t: Talent)
    requires sourceIndex < |SOURCE_CHANNELS| && stageIndex < |REJECTED_STAGES|
    ensures WellFormed(t) && t.status == Rejected
    ensures t.roleId == job.id && t.sortKey == job.postDate
    ensures t.source == SOURCE_CHANNELS[sourceIndex] && t.stage == Some(REJECTED_STAGES[stageIndex])
  {
    Talent(SOURCE_CHANNELS[sourceIndex], Rejected, job.id, Some(REJECTED_STAGES[stageIndex]), job.postDate)
  }
}
