/**
 * The generation pass (SelectionDataSimulation.py:146-187): for each branch, a few unfilled openings with
 * their active candidates and a fixed batch of filled openings with their hired and rejected candidates,
 * each with the expenses its candidates' stages call for. Every random draw is an input (the draw
 * datatypes below); opening ids come from a fresh supply: the opening appended k-th gets id k.
 */
module Simulation {
  import opened Wrappers
  import opened CharLists
  import opened Dates
  import opened OrgStructure
  import opened Openings
  import opened TalentPool
  import opened Expenses

  // ---------------------------------------------------------------- draws

  /** One candidate's draws: source index, stage index and the travel amount an onsite stage would use. */
  datatype CandidateDraw = CandidateDraw(sourceIndex: nat, stageIndex: nat, travelAmount: int)

  /** The draws for one unfilled opening; `|candidates|` is the `randint(0, 50)` candidate count. */
  datatype UnfilledDraw = UnfilledDraw(departmentIndex: nat, durationSample: int, candidates: seq<CandidateDraw>)

  /** The draws for one filled opening; `|candidates|` is the `randint(10, 30)` rejected count. */
  datatype FilledDraw = FilledDraw(
    departmentIndex: nat,
    durationSample: int,
    extraDays: int,
    hiredSourceIndex: nat,
    candidates: seq<CandidateDraw>)

  /** The draws for one branch; `openCountDraw` is the `randint(0, 10)` behind the count of open roles. */
  datatype BranchDraw = BranchDraw(openCountDraw: int, unfilled: seq<UnfilledDraw>, filled: seq<FilledDraw>)

  predicate ValidCandidateDraw(d: CandidateDraw, stageCount: nat)
  {
    d.sourceIndex < |SOURCE_CHANNELS| && d.stageIndex < stageCount && MIN_TRAVEL <= d.travelAmount <= MAX_TRAVEL
  }

  predicate ValidUnfilledDraw(d: UnfilledDraw)
  {
    d.departmentIndex < |DEPARTMENTS| && |d.candidates| <= 50
    && forall i :: 0 <= i < |d.candidates| ==> ValidCandidateDraw(d.candidates[i], |ACTIVE_STAGES|)
  }

  predicate ValidFilledDraw(d: FilledDraw)
  {
    d.departmentIndex < |DEPARTMENTS| && 1 <= d.extraDays <= RANGE_OF_DATA_YRS * 365
    && d.hiredSourceIndex < |SOURCE_CHANNELS| && 10 <= |d.candidates| <= 30
    && forall i :: 0 <= i < |d.candidates| ==> ValidCandidateDraw(d.candidates[i], |REJECTED_STAGES|)
  }

  /** `max(0, randint(0, 10) - 3)` open roles and FILLED_JOBS_PER_DEPARTMENT filled ones. */
  predicate ValidBranchDraw(d: BranchDraw)
  {
    0 <= d.openCountDraw <= 10
    && |d.unfilled| == Max(0, d.openCountDraw - 3)
    && |d.filled| == FILLED_JOBS_PER_DEPARTMENT
    && (forall i :: 0 <= i < |d.unfilled| ==> ValidUnfilledDraw(d.unfilled[i]))
    && (forall i :: 0 <= i < |d.filled| ==> ValidFilledDraw(d.filled[i]))
  }

  // ---------------------------------------------------------------- the stage-to-expense rule

  /** The candidate rows that add a personnel-assessment expense (lines 159-162 and 181-184). */
  predicate TriggersAssessment(t: Talent)
  {
    (t.status == Active && (t.stage == Some(KSAOAssessment) || t.stage == Some(Onsite)))
    || (t.status == Rejected
        && (t.stage == Some(KSAOAssessment) || t.stage == Some(Onsite) || t.stage == Some(OfferAndNegotiation)))
  }

  /** The candidate rows that add an onsite-travel expense (lines 161-163 and 183-185). */
  predicate TriggersTravel(t: Talent)
  {
    (t.status == Active && t.stage == Some(Onsite))
    || (t.status == Rejected && (t.stage == Some(Onsite) || t.stage == Some(OfferAndNegotiation)))
  }

  // ---------------------------------------------------------------- tallies

  /** Which of an opening's talent rows a tally counts. */
  datatype TalentQuery = WithStatus(status: Status) | HiredByReferral | NeedsAssessment | NeedsTravel

  predicate Selects(q: TalentQuery, t: Talent)
  {
    match q
    case WithStatus(st) => t.status == st
    case HiredByReferral => t.status == Hired && t.source == Referral
    case NeedsAssessment => TriggersAssessment(t)
    case NeedsTravel => TriggersTravel(t)
  }

  function TalentHit(t: Talent, id: OpeningId, q: TalentQuery): nat
  {
    if t.roleId == id && Selects(q, t) then 1 else 0
  }

  function ExpenseHit(e: Expense, id: OpeningId, c: Category): nat
  {
    if e.roleId == id && e.category == c then 1 else 0
  }

  function OpeningHit(o: Opening, b: CodePoint, f: Flag): nat
  {
    if o.branch == b && o.filled == f then 1 else 0
  }

  /** The number of rows of opening `id` that `q` selects. */
  function TalentTally(rows: seq<Talent>, id: OpeningId, q: TalentQuery): nat
  {
    if rows == [] then 0 else TalentTally(rows[..|rows| - 1], id, q) + TalentHit(rows[|rows| - 1], id, q)
  }

  /** The number of expense rows of opening `id` in category `c`. */
  function ExpenseTally(rows: seq<Expense>, id: OpeningId, c: Category): nat
  {
    if rows == [] then 0 else ExpenseTally(rows[..|rows| - 1], id, c) + ExpenseHit(rows[|rows| - 1], id, c)
  }

  /** The number of openings of branch `b` whose filled flag is `f`. */
  function OpeningTally(rows: seq<Opening>, b: CodePoint, f: Flag): nat
  {
    if rows == [] then 0 else OpeningTally(rows[..|rows| - 1], b, f) + OpeningHit(rows[|rows| - 1], b, f)
  }

  /** The number of branches with id `b`. */
  function BranchTally(branches: seq<Branch>, b: CodePoint): nat
  {
    if branches == [] then 0
    else BranchTally(branches[..|branches| - 1], b) + (if branches[|branches| - 1].id == b then 1 else 0)
  }

  lemma TalentTallySnoc(rows: seq<Talent>, t: Talent)
    ensures forall id, q :: TalentTally(rows + [t], id, q) == TalentTally(rows, id, q) + TalentHit(t, id, q)
  {
    assert (rows + [t])[..|rows|] == rows;
  }

  lemma ExpenseTallySnoc(rows: seq<Expense>, e: Expense)
    ensures forall id, c :: ExpenseTally(rows + [e], id, c) == ExpenseTally(rows, id, c) + ExpenseHit(e, id, c)
  {
    assert (rows + [e])[..|rows|] == rows;
  }

  lemma OpeningTallySnoc(rows: seq<Opening>, o: Opening)
    ensures forall b, f :: OpeningTally(rows + [o], b, f) == OpeningTally(rows, b, f) + OpeningHit(o, b, f)
  {
    assert (rows + [o])[..|rows|] == rows;
  }

  lemma BranchTallySnoc(branches: seq<Branch>, i: nat)
    requires i < |branches|
    ensures forall b :: BranchTally(branches[..i + 1], b) == BranchTally(branches[..i], b) + (if branches[i].id == b then 1 else 0)
  {
    assert branches[..i + 1][..i] == branches[..i];
  }

  /** A tally over two concatenated lists is the sum of the tallies. */
  lemma {:induction false} TalentTallyAppend(a: seq<Talent>, b: seq<Talent>, id: OpeningId, q: TalentQuery)
    ensures TalentTally(a + b, id, q) == TalentTally(a, id, q) + TalentTally(b, id, q)
    decreases |b|
  {
    if b == [] {
      assert a + b == a;
    } else {
      var init := b[..|b| - 1];
      TalentTallyAppend(a, init, id, q);
      assert (a + b)[..|a + b| - 1] == a + init;
      assert (a + b)[|a + b| - 1] == b[|b| - 1];
    }
  }

  lemma {:induction false} ExpenseTallyAppend(a: seq<Expense>, b: seq<Expense>, id: OpeningId, c: Category)
    ensures ExpenseTally(a + b, id, c) == ExpenseTally(a, id, c) + ExpenseTally(b, id, c)
    decreases |b|
  {
    if b == [] {
      assert a + b == a;
    } else {
      var init := b[..|b| - 1];
      ExpenseTallyAppend(a, init, id, c);
      assert (a + b)[..|a + b| - 1] == a + init;
      assert (a + b)[|a + b| - 1] == b[|b| - 1];
    }
  }

  /** A tally is zero exactly when no row of the opening is selected. */
  lemma {:induction false} TalentTallyZero(rows: seq<Talent>, id: OpeningId, q: TalentQuery)
    ensures TalentTally(rows, id, q) == 0
      <==> forall k :: 0 <= k < |rows| ==> !(rows[k].roleId == id && Selects(q, rows[k]))
  {
    if rows != [] {
      TalentTallyZero(rows[..|rows| - 1], id, q);
    }
  }

  /** Every row of opening `id` is active, hired or rejected, so the three status tallies add up to the row count. */
  lemma {:induction false} StatusTallies(rows: seq<Talent>, id: OpeningId)
    requires forall k :: 0 <= k < |rows| ==> rows[k].roleId == id
    ensures TalentTally(rows, id, WithStatus(Active)) + TalentTally(rows, id, WithStatus(Hired))
      + TalentTally(rows, id, WithStatus(Rejected)) == |rows|
  {
    if rows != [] {
      var init := rows[..|rows| - 1];
      assert forall k :: 0 <= k < |init| ==> init[k] == rows[k];
      StatusTallies(init, id);
    }
  }

  lemma {:induction false} ExpenseTallyZero(rows: seq<Expense>, id: OpeningId, c: Category)
    ensures ExpenseTally(rows, id, c) == 0
      <==> forall k :: 0 <= k < |rows| ==> !(rows[k].roleId == id && rows[k].category == c)
  {
    if rows != [] {
      ExpenseTallyZero(rows[..|rows| - 1], id, c);
    }
  }

  // ---------------------------------------------------------------- the relational invariant

  /** A talent row fits its opening: same sort key, and active rows only on unfilled, hired and rejected only on filled ones. */
  predicate TalentFits(t: Talent, o: Opening)
  {
    WellFormed(t) && t.sortKey == o.postDate
    && (t.status == Active ==> o.filled == 0)
    && (t.status == Hired ==> o.filled == 1)
    && (t.status == Rejected ==> o.filled == 1)
  }

  predicate ExpenseFits(e: Expense, o: Opening)
  {
    ValidAmount(e) && e.sortKey == o.postDate
  }

  /** The expense tallies of opening `o` agree with its talent rows: the stage-to-expense rule, counted. */
  predicate Balanced(o: Opening, talent: seq<Talent>, expenses: seq<Expense>)
  {
    var id := o.id;
    TalentTally(talent, id, WithStatus(Hired)) == o.filled
    && ExpenseTally(expenses, id, JobBoardListing) == 1
    && ExpenseTally(expenses, id, InternalReferralBonus) == TalentTally(talent, id, HiredByReferral)
    && ExpenseTally(expenses, id, PersonnelAssessment) == o.filled + TalentTally(talent, id, NeedsAssessment)
    && ExpenseTally(expenses, id, OnsiteTravel) == TalentTally(talent, id, NeedsTravel)
  }

  /** What the rows of opening `o` add up to: balanced, with 0-50 active or 10-30 rejected candidates. */
  predicate RoleTallies(o: Opening, talent: seq<Talent>, expenses: seq<Expense>)
  {
    Balanced(o, talent, expenses)
    && (o.filled == 0 ==> TalentTally(talent, o.id, WithStatus(Active)) <= 50)
    && (o.filled == 1 ==> 10 <= TalentTally(talent, o.id, WithStatus(Rejected)) <= 30)
  }

  /**
   * The consistency of the three lists: opening ids are fresh and distinct (the k-th is k), every opening
   * keeps its date invariants and is in a configured department, every talent and expense row points to an existing opening it fits, and
   * every opening's rows add up as `RoleTallies` says.
   */
  predicate Consistent(openings: seq<Opening>, talent: seq<Talent>, expenses: seq<Expense>, today: Day)
  {
    (forall j :: 0 <= j < |openings| ==>
          openings[j].id == j && ValidOpening(openings[j], today) && IsDepartment(openings[j].department))
    && (forall i :: 0 <= i < |talent| ==>
          talent[i].roleId < |openings| && TalentFits(talent[i], openings[talent[i].roleId]))
    && (forall i :: 0 <= i < |expenses| ==>
          expenses[i].roleId < |openings| && ExpenseFits(expenses[i], openings[expenses[i].roleId]))
    && (forall j :: 0 <= j < |openings| ==> RoleTallies(openings[j], talent, expenses))
  }

  /** The rows one loop iteration adds for its new opening `o`. */
  predicate RowsOf(o: Opening, newTalent: seq<Talent>, newExpenses: seq<Expense>)
  {
    (forall i :: 0 <= i < |newTalent| ==> newTalent[i].roleId == o.id && TalentFits(newTalent[i], o))
    && (forall i :: 0 <= i < |newExpenses| ==> newExpenses[i].roleId == o.id && ExpenseFits(newExpenses[i], o))
  }

  lemma TalliesOfOthers(talent: seq<Talent>, expenses: seq<Expense>, id: OpeningId)
    requires forall i :: 0 <= i < |talent| ==> talent[i].roleId != id
    requires forall i :: 0 <= i < |expenses| ==> expenses[i].roleId != id
    ensures forall q :: TalentTally(talent, id, q) == 0
    ensures forall c :: ExpenseTally(expenses, id, c) == 0
  {
    forall q ensures TalentTally(talent, id, q) == 0 { TalentTallyZero(talent, id, q); }
    forall c ensures ExpenseTally(expenses, id, c) == 0 { ExpenseTallyZero(expenses, id, c); }
  }

  /** Rows of other openings, appended after those of `p`, leave `p`'s tallies as they are. */
  lemma RoleTalliesAppend(
    p: Opening, talent: seq<Talent>, expenses: seq<Expense>, others: seq<Talent>, otherExpenses: seq<Expense>)
    requires RoleTallies(p, talent, expenses)
    requires forall i :: 0 <= i < |others| ==> others[i].roleId != p.id
    requires forall i :: 0 <= i < |otherExpenses| ==> otherExpenses[i].roleId != p.id
    ensures RoleTallies(p, talent + others, expenses + otherExpenses)
  {
    TalliesOfOthers(others, otherExpenses, p.id);
    forall q ensures TalentTally(talent + others, p.id, q) == TalentTally(talent, p.id, q) {
      TalentTallyAppend(talent, others, p.id, q);
    }
    forall c ensures ExpenseTally(expenses + otherExpenses, p.id, c) == ExpenseTally(expenses, p.id, c) {
      ExpenseTallyAppend(expenses, otherExpenses, p.id, c);
    }
  }

  /** Tallies do not depend on the order of two blocks of rows. */
  lemma RoleTalliesCommute(p: Opening, a: seq<Talent>, e: seq<Expense>, b: seq<Talent>, f: seq<Expense>)
    requires RoleTallies(p, b + a, f + e)
    ensures RoleTallies(p, a + b, e + f)
  {
    forall q ensures TalentTally(a + b, p.id, q) == TalentTally(b + a, p.id, q) {
      TalentTallyAppend(a, b, p.id, q);
      TalentTallyAppend(b, a, p.id, q);
    }
    forall c ensures ExpenseTally(e + f, p.id, c) == ExpenseTally(f + e, p.id, c) {
      ExpenseTallyAppend(e, f, p.id, c);
      ExpenseTallyAppend(f, e, p.id, c);
    }
  }

  /** Appending a fresh opening with its own rows keeps the lists consistent. */
  lemma ExtendConsistent(
    openings: seq<Opening>, talent: seq<Talent>, expenses: seq<Expense>, today: Day,
    o: Opening, newTalent: seq<Talent>, newExpenses: seq<Expense>, dptIndex: nat)
    requires Consistent(openings, talent, expenses, today)
    requires o.id == |openings| && ValidOpening(o, today)
    requires dptIndex < |DEPARTMENTS| && o.department == DEPARTMENTS[dptIndex].name
    requires RowsOf(o, newTalent, newExpenses) && RoleTallies(o, newTalent, newExpenses)
    ensures Consistent(openings + [o], talent + newTalent, expenses + newExpenses, today)
  {
    var O, T, E := openings + [o], talent + newTalent, expenses + newExpenses;
    assert IsDepartment(o.department);
    forall i | 0 <= i < |T|
      ensures T[i].roleId < |O| && TalentFits(T[i], O[T[i].roleId])
    {
      if i < |talent| {
        assert T[i] == talent[i];
      } else {
        assert T[i] == newTalent[i - |talent|];
      }
    }
    forall i | 0 <= i < |E|
      ensures E[i].roleId < |O| && ExpenseFits(E[i], O[E[i].roleId])
    {
      if i < |expenses| {
        assert E[i] == expenses[i];
      } else {
        assert E[i] == newExpenses[i - |expenses|];
      }
    }
    forall j | 0 <= j < |O|
      ensures RoleTallies(O[j], T, E)
    {
      if j < |openings| {
        RoleTalliesAppend(openings[j], talent, expenses, newTalent, newExpenses);
      } else {
        assert O[j] == o;
        RoleTalliesAppend(o, newTalent, newExpenses, talent, expenses);
        RoleTalliesCommute(o, talent, expenses, newTalent, newExpenses);
      }
    }
  }

  lemma AppendAssoc<T>(a: seq<T>, b: seq<T>, c: seq<T>)
    ensures (a + b) + c == a + (b + c)
  {
  }

  // ---------------------------------------------------------------- one candidate, one hire

  /** The expenses one candidate row of `job` adds: an assessment, and an onsite trip as well, as its stage says. */
  function StageExpenses(job: Opening, t: Talent, travelAmount: int): seq<Expense>
    requires MIN_TRAVEL <= travelAmount <= MAX_TRAVEL
  {
    (if TriggersAssessment(t) then [AssessmentExpense(job)] else [])
    + (if TriggersTravel(t) then [OnsiteTravelExpense(job, travelAmount)] else [])
  }

  /** The rule as the active-candidate loop writes it (lines 159-163). */
  lemma ActiveStageRule(job: Opening, t: Talent, travelAmount: int)
    requires MIN_TRAVEL <= travelAmount <= MAX_TRAVEL && t.status == Active
    ensures StageExpenses(job, t, travelAmount)
      == if t.stage == Some(KSAOAssessment) then [AssessmentExpense(job)]
         else if t.stage == Some(Onsite) then [AssessmentExpense(job), OnsiteTravelExpense(job, travelAmount)]
         else []
  {
  }

  /** The rule as the rejected-candidate loop writes it (lines 181-185). */
  lemma RejectedStageRule(job: Opening, t: Talent, travelAmount: int)
    requires MIN_TRAVEL <= travelAmount <= MAX_TRAVEL && t.status == Rejected
    ensures StageExpenses(job, t, travelAmount)
      == if t.stage == Some(KSAOAssessment) then [AssessmentExpense(job)]
         else if t.stage == Some(Onsite) || t.stage == Some(OfferAndNegotiation)
         then [AssessmentExpense(job), OnsiteTravelExpense(job, travelAmount)]
         else []
  {
  }

  /** What a candidate's stage expenses count for its opening. */
  lemma StageExpensesTally(job: Opening, t: Talent, travelAmount: int)
    requires MIN_TRAVEL <= travelAmount <= MAX_TRAVEL && t.roleId == job.id
    ensures var extra := StageExpenses(job, t, travelAmount);
      (forall i :: 0 <= i < |extra| ==> extra[i].roleId == job.id && ExpenseFits(extra[i], job))
      && ExpenseTally(extra, job.id, JobBoardListing) == 0
      && ExpenseTally(extra, job.id, InternalReferralBonus) == 0
      && ExpenseTally(extra, job.id, PersonnelAssessment) == TalentHit(t, job.id, NeedsAssessment)
      && ExpenseTally(extra, job.id, OnsiteTravel) == TalentHit(t, job.id, NeedsTravel)
  {
    var assessment, travel := AssessmentExpense(job), OnsiteTravelExpense(job, travelAmount);
    var extra := StageExpenses(job, t, travelAmount);
    if TriggersTravel(t) {
      assert extra == [assessment, travel];
      forall c ensures ExpenseTally(extra, job.id, c) == ExpenseHit(assessment, job.id, c) + ExpenseHit(travel, job.id, c) {
        ExpenseTallyPair(assessment, travel, job.id, c);
      }
    } else if TriggersAssessment(t) {
      assert extra == [assessment];
      forall c ensures ExpenseTally(extra, job.id, c) == ExpenseHit(assessment, job.id, c) {
        ExpenseTallyOne(assessment, job.id, c);
      }
    } else {
      assert extra == [];
    }
  }

  lemma ExpenseTallyOne(e: Expense, id: OpeningId, c: Category)
    ensures ExpenseTally([e], id, c) == ExpenseHit(e, id, c)
  {
    assert [e][..0] == [];
  }

  lemma ExpenseTallyPair(e1: Expense, e2: Expense, id: OpeningId, c: Category)
    ensures ExpenseTally([e1, e2], id, c) == ExpenseHit(e1, id, c) + ExpenseHit(e2, id, c)
  {
    assert [e1, e2][..1] == [e1];
    ExpenseTallyOne(e1, id, c);
  }

  /** Appending rows of `o` that fit it keeps every row one of `o`'s. */
  lemma RowsOfAppend(o: Opening, rows: seq<Talent>, costs: seq<Expense>, moreRows: seq<Talent>, moreCosts: seq<Expense>)
    requires RowsOf(o, rows, costs) && RowsOf(o, moreRows, moreCosts)
    ensures RowsOf(o, rows + moreRows, costs + moreCosts)
  {
    forall i | 0 <= i < |rows + moreRows|
      ensures (rows + moreRows)[i].roleId == o.id && TalentFits((rows + moreRows)[i], o)
    {
      if i >= |rows| {
        assert (rows + moreRows)[i] == moreRows[i - |rows|];
      } else {
        assert (rows + moreRows)[i] == rows[i];
      }
    }
    forall i | 0 <= i < |costs + moreCosts|
      ensures (costs + moreCosts)[i].roleId == o.id && ExpenseFits((costs + moreCosts)[i], o)
    {
      if i >= |costs| {
        assert (costs + moreCosts)[i] == moreCosts[i - |costs|];
      } else {
        assert (costs + moreCosts)[i] == costs[i];
      }
    }
  }

  /** Adding a candidate row of `o` together with the expenses its stage calls for keeps the rows balanced. */
  lemma CandidateStep(o: Opening, rows: seq<Talent>, costs: seq<Expense>, t: Talent, travelAmount: int)
    requires MIN_TRAVEL <= travelAmount <= MAX_TRAVEL
    requires RowsOf(o, rows, costs) && Balanced(o, rows, costs)
    requires t.roleId == o.id && t.status != Hired && TalentFits(t, o)
    ensures RowsOf(o, rows + [t], costs + StageExpenses(o, t, travelAmount))
    ensures Balanced(o, rows + [t], costs + StageExpenses(o, t, travelAmount))
    ensures forall st ::
      TalentTally(rows + [t], o.id, WithStatus(st)) == TalentTally(rows, o.id, WithStatus(st)) + (if t.status == st then 1 else 0)
  {
    var extra := StageExpenses(o, t, travelAmount);
    StageExpensesTally(o, t, travelAmount);
    RowsOfAppend(o, rows, costs, [t], extra);
    TalentTallySnoc(rows, t);
    ExpenseTallyAppend(costs, extra, o.id, JobBoardListing);
    ExpenseTallyAppend(costs, extra, o.id, InternalReferralBonus);
    ExpenseTallyAppend(costs, extra, o.id, PersonnelAssessment);
    ExpenseTallyAppend(costs, extra, o.id, OnsiteTravel);
  }

  /** An unfilled opening with only its job-board expense is balanced. */
  lemma ListingStep(job: Opening)
    requires job.filled == 0
    ensures RowsOf(job, [], [JobBoardExpense(job)]) && Balanced(job, [], [JobBoardExpense(job)])
  {
    ExpenseTallySnoc([], JobBoardExpense(job));
    assert [] + [JobBoardExpense(job)] == [JobBoardExpense(job)];
  }

  /** The expenses a filled opening starts with: job board, assessment, and a referral bonus when hired by referral. */
  function HireExpenses(job: Opening, hired: Talent): seq<Expense>
  {
    [JobBoardExpense(job), AssessmentExpense(job)] + (if hired.source == Referral then [ReferralExpense(job)] else [])
  }

  /** A filled opening whose hired row comes with those expenses is balanced. */
  lemma HireStep(job: Opening, hired: Talent)
    requires job.filled == 1 && hired.roleId == job.id && hired.status == Hired && TalentFits(hired, job)
    ensures RowsOf(job, [hired], HireExpenses(job, hired)) && Balanced(job, [hired], HireExpenses(job, hired))
  {
    var fixed := [JobBoardExpense(job), AssessmentExpense(job)];
    var bonus := if hired.source == Referral then [ReferralExpense(job)] else [];
    TalentTallySnoc([], hired);
    assert [] + [hired] == [hired];
    ExpenseTallySnoc([], fixed[0]);
    assert [] + [fixed[0]] == [fixed[0]];
    ExpenseTallySnoc([fixed[0]], fixed[1]);
    assert [fixed[0]] + [fixed[1]] == fixed;
    if hired.source == Referral {
      ExpenseTallySnoc(fixed, bonus[0]);
      assert fixed + bonus == fixed + [bonus[0]];
    } else {
      assert fixed + bonus == fixed;
    }
  }

  // ---------------------------------------------------------------- the candidates of one opening

  /** How many stages a candidate of `o` is drawn from: the four active stages on an open role, all five on a filled one. */
  function StageCount(o: Opening): nat
  {
    if o.filled == 0 then |ACTIVE_STAGES| else |REJECTED_STAGES|
  }

  predicate ValidCandidates(o: Opening, ds: seq<CandidateDraw>)
  {
    forall i :: 0 <= i < |ds| ==> ValidCandidateDraw(ds[i], StageCount(o))
  }

  /** The row one candidate draw yields: an active candidate of an open role (line 158), a rejected one of a filled role (line 180). */
  function Candidate(o: Opening, d: CandidateDraw): Talent
    requires ValidCandidateDraw(d, StageCount(o))
  {
    if o.filled == 0 then GenerateActiveTalent(o, d.sourceIndex, d.stageIndex)
    else GenerateRejectedTalent(o, d.sourceIndex, d.stageIndex)
  }

  /** The candidate rows of `o`, one per draw, in the order drawn. */
  function CandidateRows(o: Opening, ds: seq<CandidateDraw>): seq<Talent>
    requires ValidCandidates(o, ds)
  {
    if ds == [] then [] else CandidateRows(o, ds[..|ds| - 1]) + [Candidate(o, ds[|ds| - 1])]
  }

  /** The expenses those candidates call for, candidate by candidate. */
  function CandidateCosts(o: Opening, ds: seq<CandidateDraw>): seq<Expense>
    requires ValidCandidates(o, ds)
  {
    if ds == [] then []
    else CandidateCosts(o, ds[..|ds| - 1]) + StageExpenses(o, Candidate(o, ds[|ds| - 1]), ds[|ds| - 1].travelAmount)
  }

  /** The k-th candidate row is the one the k-th draw yields. */
  lemma {:induction false} CandidateRowsAt(o: Opening, ds: seq<CandidateDraw>)
    requires ValidCandidates(o, ds)
    ensures |CandidateRows(o, ds)| == |ds|
    ensures forall k :: 0 <= k < |ds| ==> CandidateRows(o, ds)[k] == Candidate(o, ds[k])
  {
    if ds != [] {
      var n := |ds| - 1;
      CandidateRowsAt(o, ds[..n]);
      assert forall k :: 0 <= k < n ==> ds[..n][k] == ds[k];
    }
  }

  /** One more draw adds its row and its stage expenses at the end. */
  lemma CandidatesSnoc(o: Opening, ds: seq<CandidateDraw>, i: nat)
    requires ValidCandidates(o, ds) && i < |ds|
    ensures CandidateRows(o, ds[..i + 1]) == CandidateRows(o, ds[..i]) + [Candidate(o, ds[i])]
    ensures CandidateCosts(o, ds[..i + 1]) == CandidateCosts(o, ds[..i]) + StageExpenses(o, Candidate(o, ds[i]), ds[i].travelAmount)
  {
    assert ds[..i + 1][..i] == ds[..i];
  }

  /** The same, after a fixed head of rows and expenses. */
  lemma CandidatePrefixStep(o: Opening, ds: seq<CandidateDraw>, i: nat, head: seq<Talent>, headCosts: seq<Expense>)
    requires ValidCandidates(o, ds) && i < |ds|
    ensures head + CandidateRows(o, ds[..i + 1]) == (head + CandidateRows(o, ds[..i])) + [Candidate(o, ds[i])]
    ensures headCosts + CandidateCosts(o, ds[..i + 1])
      == (headCosts + CandidateCosts(o, ds[..i])) + StageExpenses(o, Candidate(o, ds[i]), ds[i].travelAmount)
  {
    CandidatesSnoc(o, ds, i);
    AppendAssoc(head, CandidateRows(o, ds[..i]), [Candidate(o, ds[i])]);
    AppendAssoc(headCosts, CandidateCosts(o, ds[..i]), StageExpenses(o, Candidate(o, ds[i]), ds[i].travelAmount));
  }

  /**
   * The candidates' expenses are exactly what their stages call for: as many assessments and onsite trips as
   * there are candidates whose stage needs them, and no listing or referral bonus.
   */
  lemma {:induction false} CandidateCostsTally(o: Opening, ds: seq<CandidateDraw>)
    requires ValidCandidates(o, ds)
    ensures ExpenseTally(CandidateCosts(o, ds), o.id, PersonnelAssessment) == TalentTally(CandidateRows(o, ds), o.id, NeedsAssessment)
    ensures ExpenseTally(CandidateCosts(o, ds), o.id, OnsiteTravel) == TalentTally(CandidateRows(o, ds), o.id, NeedsTravel)
    ensures ExpenseTally(CandidateCosts(o, ds), o.id, JobBoardListing) == 0
    ensures ExpenseTally(CandidateCosts(o, ds), o.id, InternalReferralBonus) == 0
  {
    if ds != [] {
      var n := |ds| - 1;
      var init, d := ds[..n], ds[n];
      CandidateCostsTally(o, init);
      var t := Candidate(o, d);
      var extra := StageExpenses(o, t, d.travelAmount);
      StageExpensesTally(o, t, d.travelAmount);
      TalentTallySnoc(CandidateRows(o, init), t);
      ExpenseTallyAppend(CandidateCosts(o, init), extra, o.id, PersonnelAssessment);
      ExpenseTallyAppend(CandidateCosts(o, init), extra, o.id, OnsiteTravel);
      ExpenseTallyAppend(CandidateCosts(o, init), extra, o.id, JobBoardListing);
      ExpenseTallyAppend(CandidateCosts(o, init), extra, o.id, InternalReferralBonus);
    }
  }

  // ---------------------------------------------------------------- the lists one branch adds

  /**
   * The lists after a branch iteration extend the lists before it: every opening added is of branch `b`, and
   * every talent and expense row added belongs to one of the openings added.
   */
  predicate ExtendsBy(
    openings: seq<Opening>, talent: seq<Talent>, expenses: seq<Expense>,
    openings': seq<Opening>, talent': seq<Talent>, expenses': seq<Expense>, b: CodePoint)
  {
    openings <= openings' && talent <= talent' && expenses <= expenses'
    && (forall j :: |openings| <= j < |openings'| ==> openings'[j].branch == b)
    && (forall i :: |talent| <= i < |talent'| ==> |openings| <= talent'[i].roleId < |openings'|)
    && (forall i :: |expenses| <= i < |expenses'| ==> |openings| <= expenses'[i].roleId < |openings'|)
  }

  /** Appending an opening of branch `b` with its own rows keeps the lists an extension of the same kind. */
  lemma ExtendsByStep(
    openings: seq<Opening>, talent: seq<Talent>, expenses: seq<Expense>,
    midOpenings: seq<Opening>, midTalent: seq<Talent>, midExpenses: seq<Expense>,
    o: Opening, newTalent: seq<Talent>, newExpenses: seq<Expense>, b: CodePoint)
    requires ExtendsBy(openings, talent, expenses, midOpenings, midTalent, midExpenses, b)
    requires o.branch == b && o.id == |midOpenings| && RowsOf(o, newTalent, newExpenses)
    ensures ExtendsBy(openings, talent, expenses, midOpenings + [o], midTalent + newTalent, midExpenses + newExpenses, b)
  {
    var O, T, E := midOpenings + [o], midTalent + newTalent, midExpenses + newExpenses;
    assert O[..|openings|] == midOpenings[..|openings|];
    assert T[..|talent|] == midTalent[..|talent|];
    assert E[..|expenses|] == midExpenses[..|expenses|];
    forall i | |talent| <= i < |T|
      ensures |openings| <= T[i].roleId < |O|
    {
      if i >= |midTalent| {
        assert T[i] == newTalent[i - |midTalent|];
      } else {
        assert T[i] == midTalent[i];
      }
    }
    forall i | |expenses| <= i < |E|
      ensures |openings| <= E[i].roleId < |O|
    {
      if i >= |midExpenses| {
        assert E[i] == newExpenses[i - |midExpenses|];
      } else {
        assert E[i] == midExpenses[i];
      }
    }
  }

  /** Two extensions by the same branch make one. */
  lemma ExtendsByTrans(
    openings: seq<Opening>, talent: seq<Talent>, expenses: seq<Expense>,
    midOpenings: seq<Opening>, midTalent: seq<Talent>, midExpenses: seq<Expense>,
    openings': seq<Opening>, talent': seq<Talent>, expenses': seq<Expense>, b: CodePoint)
    requires ExtendsBy(openings, talent, expenses, midOpenings, midTalent, midExpenses, b)
    requires ExtendsBy(midOpenings, midTalent, midExpenses, openings', talent', expenses', b)
    ensures ExtendsBy(openings, talent, expenses, openings', talent', expenses', b)
  {
    forall j | |openings| <= j < |openings'|
      ensures openings'[j].branch == b
    {
      if j < |midOpenings| {
        assert openings'[j] == midOpenings[j];
      }
    }
    forall i | |talent| <= i < |talent'|
      ensures |openings| <= talent'[i].roleId < |openings'|
    {
      if i < |midTalent| {
        assert talent'[i] == midTalent[i];
      }
    }
    forall i | |expenses| <= i < |expenses'|
      ensures |openings| <= expenses'[i].roleId < |openings'|
    {
      if i < |midExpenses| {
        assert expenses'[i] == midExpenses[i];
      }
    }
  }

  // ---------------------------------------------------------------- what each loop appends

  /** The openings, talent rows and expenses that a stretch of the loops appends, side by side. */
  datatype Batch = Batch(openings: seq<Opening>, talent: seq<Talent>, expenses: seq<Expense>)

  const NoRows := Batch([], [], [])

  /** One batch followed by another. */
  function Then(a: Batch, b: Batch): Batch
  {
    Batch(a.openings + b.openings, a.talent + b.talent, a.expenses + b.expenses)
  }

  /** The lists after are the lists before, followed by the batch `p`. */
  predicate Appends(
    openings: seq<Opening>, talent: seq<Talent>, expenses: seq<Expense>, p: Batch,
    openings': seq<Opening>, talent': seq<Talent>, expenses': seq<Expense>)
  {
    openings' == openings + p.openings && talent' == talent + p.talent && expenses' == expenses + p.expenses
  }

  /** What one unfilled role appends (lines 151-164): its opening, its active candidates, its listing and their stage expenses. */
  function UnfilledRoleBatch(id: OpeningId, brn: Branch, today: Day, d: UnfilledDraw): Batch
    requires ValidUnfilledDraw(d)
  {
    var o := GenerateUnfilledOpening(id, brn, DEPARTMENTS[d.departmentIndex], today, d.durationSample);
    Batch([o], CandidateRows(o, d.candidates), [JobBoardExpense(o)] + CandidateCosts(o, d.candidates))
  }

  /**
   * What one filled role appends (lines 168-187): its opening, the hire and the rejected candidates, the hire's
   * fees and the candidates' stage expenses.
   */
  function FilledRoleBatch(id: OpeningId, brn: Branch, today: Day, d: FilledDraw): Batch
    requires ValidFilledDraw(d)
  {
    var o := GenerateFilledOpening(id, brn, DEPARTMENTS[d.departmentIndex], today, d.durationSample, d.extraDays);
    var hired := GenerateCurrentEmployee(o, d.hiredSourceIndex);
    Batch([o], [hired] + CandidateRows(o, d.candidates), HireExpenses(o, hired) + CandidateCosts(o, d.candidates))
  }

  /**
   * What the open-roles loop appends after the openings `before` for the first `n` draws of `ds`, in order,
   * each role getting as its id the number of openings listed ahead of it.
   */
  function UnfilledPass(before: seq<Opening>, brn: Branch, today: Day, ds: seq<UnfilledDraw>, n: nat): Batch
    requires n <= |ds| && forall i :: 0 <= i < |ds| ==> ValidUnfilledDraw(ds[i])
  {
    if n == 0 then NoRows
    else
      var p := UnfilledPass(before, brn, today, ds, n - 1);
      Then(p, UnfilledRoleBatch(|before + p.openings|, brn, today, ds[n - 1]))
  }

  /**
   * What the filled-roles loop appends after the openings `before` for the first `n` draws of `ds`, in order,
   * each role getting as its id the number of openings listed ahead of it.
   */
  function FilledPass(before: seq<Opening>, brn: Branch, today: Day, ds: seq<FilledDraw>, n: nat): Batch
    requires n <= |ds| && forall i :: 0 <= i < |ds| ==> ValidFilledDraw(ds[i])
  {
    if n == 0 then NoRows
    else
      var p := FilledPass(before, brn, today, ds, n - 1);
      Then(p, FilledRoleBatch(|before + p.openings|, brn, today, ds[n - 1]))
  }

  /**
   * What one pass of the branch loop appends after the openings `before` (lines 148-187): the
   * `max(0, randint(0, 10) - 3)` open roles, then the filled roles.
   */
  function BranchPass(before: seq<Opening>, brn: Branch, today: Day, d: BranchDraw): Batch
    requires ValidBranchDraw(d)
  {
    var u := UnfilledPass(before, brn, today, d.unfilled, Max(0, d.openCountDraw - 3));
    Then(u, FilledPass(before + u.openings, brn, today, d.filled, |d.filled|))
  }

  /**
   * The lists the generation pass builds from empty ones for the first `n` branches (lines 138-187): branch
   * by branch, each with its own draws, each opening's id one more than the last.
   */
  function SimulationPass(branches: seq<Branch>, draws: seq<BranchDraw>, today: Day, n: nat): Batch
    requires n <= |branches| == |draws| && forall b :: 0 <= b < |draws| ==> ValidBranchDraw(draws[b])
  {
    if n == 0 then NoRows
    else
      var prev := SimulationPass(branches, draws, today, n - 1);
      Then(prev, BranchPass(prev.openings, branches[n - 1], today, draws[n - 1]))
  }

  /** The unfilled openings the first `n` branches with id `c` get: `max(0, randint(0, 10) - 3)` each (line 149). */
  function UnfilledCount(branches: seq<Branch>, draws: seq<BranchDraw>, c: CodePoint, n: nat): int
    requires n <= |branches| == |draws|
  {
    if n == 0 then 0
    else UnfilledCount(branches, draws, c, n - 1) + (if branches[n - 1].id == c then Max(0, draws[n - 1].openCountDraw - 3) else 0)
  }

  /** The j-th opening of the open-roles loop is generated from the j-th draw, with the id after `before` and `j` more. */
  lemma {:induction false} UnfilledPassOpenings(before: seq<Opening>, brn: Branch, today: Day, ds: seq<UnfilledDraw>, n: nat)
    requires n <= |ds| && forall i :: 0 <= i < |ds| ==> ValidUnfilledDraw(ds[i])
    ensures |UnfilledPass(before, brn, today, ds, n).openings| == n
    ensures forall j {:trigger UnfilledPass(before, brn, today, ds, n).openings[j]} :: 0 <= j < n ==>
      UnfilledPass(before, brn, today, ds, n).openings[j]
      == GenerateUnfilledOpening(|before| + j, brn, DEPARTMENTS[ds[j].departmentIndex], today, ds[j].durationSample)
  {
    if n != 0 {
      UnfilledPassOpenings(before, brn, today, ds, n - 1);
    }
  }

  /** The j-th opening of the filled-roles loop is generated from the j-th draw, with the id after `before` and `j` more. */
  lemma {:induction false} FilledPassOpenings(before: seq<Opening>, brn: Branch, today: Day, ds: seq<FilledDraw>, n: nat)
    requires n <= |ds| && forall i :: 0 <= i < |ds| ==> ValidFilledDraw(ds[i])
    ensures |FilledPass(before, brn, today, ds, n).openings| == n
    ensures forall j {:trigger FilledPass(before, brn, today, ds, n).openings[j]} :: 0 <= j < n ==>
      FilledPass(before, brn, today, ds, n).openings[j]
      == GenerateFilledOpening(|before| + j, brn, DEPARTMENTS[ds[j].departmentIndex], today, ds[j].durationSample, ds[j].extraDays)
  {
    if n != 0 {
      FilledPassOpenings(before, brn, today, ds, n - 1);
    }
  }

  /** Each branch gives at most 7 unfilled openings, since `randint(0, 10)` is at most 10. */
  lemma {:induction false} UnfilledCountBound(branches: seq<Branch>, draws: seq<BranchDraw>, c: CodePoint, n: nat)
    requires n <= |branches| == |draws| && forall b :: 0 <= b < |draws| ==> ValidBranchDraw(draws[b])
    ensures 0 <= UnfilledCount(branches, draws, c, n) <= 7 * BranchTally(branches[..n], c)
  {
    if n != 0 {
      UnfilledCountBound(branches, draws, c, n - 1);
      BranchTallySnoc(branches, n - 1);
      assert ValidBranchDraw(draws[n - 1]);
    }
  }

  /** Appending two batches in turn appends the one followed by the other. */
  lemma AppendsThen(
    openings: seq<Opening>, talent: seq<Talent>, expenses: seq<Expense>, p: Batch, q: Batch,
    midOpenings: seq<Opening>, midTalent: seq<Talent>, midExpenses: seq<Expense>,
    openings': seq<Opening>, talent': seq<Talent>, expenses': seq<Expense>)
    requires Appends(openings, talent, expenses, p, midOpenings, midTalent, midExpenses)
    requires Appends(midOpenings, midTalent, midExpenses, q, openings', talent', expenses')
    ensures Appends(openings, talent, expenses, Then(p, q), openings', talent', expenses')
  {
    AppendAssoc(openings, p.openings, q.openings);
    AppendAssoc(talent, p.talent, q.talent);
    AppendAssoc(expenses, p.expenses, q.expenses);
  }

  // ---------------------------------------------------------------- the driver loop

  /**
   * The rows of opening `job` appended so far, while its candidate loop is at draw `i`: after `talent0`
   * and `expenses0`, the fixed head rows the opening starts with and then the rows of the first `i`
   * candidates, all fitting the opening and balanced.
   */
  predicate RoleRowsSoFar(
    job: Opening, ds: seq<CandidateDraw>, i: nat, talent0: seq<Talent>, expenses0: seq<Expense>,
    head: seq<Talent>, headCosts: seq<Expense>, talent: seq<Talent>, expenses: seq<Expense>)
  {
    ValidCandidates(job, ds) && i <= |ds|
    && var rows, costs := head + CandidateRows(job, ds[..i]), headCosts + CandidateCosts(job, ds[..i]);
    talent == talent0 + rows && expenses == expenses0 + costs
    && RowsOf(job, rows, costs) && Balanced(job, rows, costs)
  }

  /** Appending the next candidate's row and its stage expenses keeps the rows balanced (lines 157-164, 179-187). */
  lemma RoleRowsStep(
    job: Opening, ds: seq<CandidateDraw>, i: nat, talent0: seq<Talent>, expenses0: seq<Expense>,
    head: seq<Talent>, headCosts: seq<Expense>, talent: seq<Talent>, expenses: seq<Expense>)
    requires RoleRowsSoFar(job, ds, i, talent0, expenses0, head, headCosts, talent, expenses) && i < |ds|
    ensures RoleRowsSoFar(job, ds, i + 1, talent0, expenses0, head, headCosts,
      talent + [Candidate(job, ds[i])], expenses + StageExpenses(job, Candidate(job, ds[i]), ds[i].travelAmount))
  {
    var rows, costs := head + CandidateRows(job, ds[..i]), headCosts + CandidateCosts(job, ds[..i]);
    var t, amount := Candidate(job, ds[i]), ds[i].travelAmount;
    CandidateStep(job, rows, costs, t, amount);
    CandidatePrefixStep(job, ds, i, head, headCosts);
    AppendAssoc(talent0, rows, [t]);
    AppendAssoc(expenses0, costs, StageExpenses(job, t, amount));
  }

  /** The invariant holds before the first candidate, once the head rows are balanced. */
  lemma RoleRowsStart(
    job: Opening, ds: seq<CandidateDraw>, talent0: seq<Talent>, expenses0: seq<Expense>,
    head: seq<Talent>, headCosts: seq<Expense>)
    requires ValidCandidates(job, ds) && RowsOf(job, head, headCosts) && Balanced(job, head, headCosts)
    ensures RoleRowsSoFar(job, ds, 0, talent0, expenses0, head, headCosts, talent0 + head, expenses0 + headCosts)
  {
    assert ds[..0] == [];
    assert head + CandidateRows(job, ds[..0]) == head;
    assert headCosts + CandidateCosts(job, ds[..0]) == headCosts;
  }

  /** After the last candidate the rows appended are the head rows followed by every candidate's rows. */
  lemma RoleRowsEnd(
    job: Opening, ds: seq<CandidateDraw>, talent0: seq<Talent>, expenses0: seq<Expense>,
    head: seq<Talent>, headCosts: seq<Expense>, talent: seq<Talent>, expenses: seq<Expense>)
    requires RoleRowsSoFar(job, ds, |ds|, talent0, expenses0, head, headCosts, talent, expenses)
    ensures var rows, costs := head + CandidateRows(job, ds), headCosts + CandidateCosts(job, ds);
      talent == talent0 + rows && expenses == expenses0 + costs
      && RowsOf(job, rows, costs) && Balanced(job, rows, costs)
      && |rows| == |head| + |ds|
  {
    assert ds[..|ds|] == ds;
    CandidateRowsAt(job, ds);
  }

  /**
   * The rows of one opening that fit it and are balanced hold its candidates and, on a filled opening, the
   * one hire: all of them active on an open role, all but one rejected on a filled role.
   */
  lemma RoleStatusTally(o: Opening, rows: seq<Talent>, costs: seq<Expense>)
    requires RowsOf(o, rows, costs) && Balanced(o, rows, costs)
    ensures o.filled == 0 ==> TalentTally(rows, o.id, WithStatus(Active)) == |rows|
    ensures o.filled == 1 ==> TalentTally(rows, o.id, WithStatus(Rejected)) == |rows| - 1
  {
    StatusTallies(rows, o.id);
    if o.filled == 0 {
      TalentTallyZero(rows, o.id, WithStatus(Rejected));
    } else {
      TalentTallyZero(rows, o.id, WithStatus(Active));
    }
  }

  /**
   * The body of the active-candidate loop (lines 157-164): the candidate's row, then an assessment fee when the
   * candidate reached the KSAO assessment, or an assessment fee and a travel expense when it reached the onsite.
   */
  method AddActiveCandidate(job: Opening, talent: seq<Talent>, expenses: seq<Expense>, d: CandidateDraw)
    returns (talent': seq<Talent>, expenses': seq<Expense>)
    requires ValidCandidateDraw(d, |ACTIVE_STAGES|)
    ensures talent' == talent + [GenerateActiveTalent(job, d.sourceIndex, d.stageIndex)]
    ensures expenses' == expenses + StageExpenses(job, GenerateActiveTalent(job, d.sourceIndex, d.stageIndex), d.travelAmount)
  {
    var tempTalent := GenerateActiveTalent(job, d.sourceIndex, d.stageIndex);
    ActiveStageRule(job, tempTalent, d.travelAmount);
    expenses' := expenses;
    if tempTalent.stage == Some(KSAOAssessment) {
      expenses' := expenses' + [AssessmentExpense(job)];
    } else if tempTalent.stage == Some(Onsite) {
      expenses' := expenses' + [AssessmentExpense(job)];
      expenses' := expenses' + [OnsiteTravelExpense(job, d.travelAmount)];
      assert expenses' == expenses + [AssessmentExpense(job), OnsiteTravelExpense(job, d.travelAmount)];
    } else {
      assert expenses' == expenses + [];
    }
    talent' := talent + [tempTalent];
  }

  /**
   * The body of the rejected-candidate loop (lines 179-187): as for active candidates, except that a candidate
   * rejected at the offer stage had also travelled onsite.
   */
  method AddRejectedCandidate(job: Opening, talent: seq<Talent>, expenses: seq<Expense>, d: CandidateDraw)
    returns (talent': seq<Talent>, expenses': seq<Expense>)
    requires ValidCandidateDraw(d, |REJECTED_STAGES|)
    ensures talent' == talent + [GenerateRejectedTalent(job, d.sourceIndex, d.stageIndex)]
    ensures expenses' == expenses + StageExpenses(job, GenerateRejectedTalent(job, d.sourceIndex, d.stageIndex), d.travelAmount)
  {
    var tempTalent := GenerateRejectedTalent(job, d.sourceIndex, d.stageIndex);
    RejectedStageRule(job, tempTalent, d.travelAmount);
    expenses' := expenses;
    if tempTalent.stage == Some(KSAOAssessment) {
      expenses' := expenses' + [AssessmentExpense(job)];
    } else if tempTalent.stage == Some(Onsite) || tempTalent.stage == Some(OfferAndNegotiation) {
      expenses' := expenses' + [AssessmentExpense(job)];
      expenses' := expenses' + [OnsiteTravelExpense(job, d.travelAmount)];
      assert expenses' == expenses + [AssessmentExpense(job), OnsiteTravelExpense(job, d.travelAmount)];
    } else {
      assert expenses' == expenses + [];
    }
    talent' := talent + [tempTalent];
  }

  /**
   * One iteration of the open-roles loop (lines 151-164): an unfilled opening with its job-board expense, then
   * one active candidate per draw, each followed by the expenses its stage calls for. Everything appended
   * belongs to the new opening and tallies as `RoleTallies` says.
   */
  method AddUnfilledRole(
    openings: seq<Opening>, talent: seq<Talent>, expenses: seq<Expense>, today: Day, brn: Branch, draw: UnfilledDraw)
    returns (openings': seq<Opening>, talent': seq<Talent>, expenses': seq<Expense>)
    requires ValidUnfilledDraw(draw)
    ensures var o := GenerateUnfilledOpening(|openings|, brn, DEPARTMENTS[draw.departmentIndex], today, draw.durationSample);
      var rows := CandidateRows(o, draw.candidates);
      var costs := [JobBoardExpense(o)] + CandidateCosts(o, draw.candidates);
      openings' == openings + [o] && talent' == talent + rows && expenses' == expenses + costs
      && RowsOf(o, rows, costs) && RoleTallies(o, rows, costs)
      && TalentTally(rows, o.id, WithStatus(Active)) == |rows| == |draw.candidates|
  {
    var dpt := DEPARTMENTS[draw.departmentIndex];
    var tempOpening := GenerateUnfilledOpening(|openings|, brn, dpt, today, draw.durationSample);
    var listing := JobBoardExpense(tempOpening);
    expenses' := expenses + [listing];
    openings' := openings + [tempOpening];
    talent' := talent;
    ghost var ds := draw.candidates;
    ListingStep(tempOpening);
    assert ValidCandidates(tempOpening, ds);
    RoleRowsStart(tempOpening, ds, talent, expenses, [], [listing]);
    assert talent + [] == talent;
    for i := 0 to |draw.candidates|
      invariant RoleRowsSoFar(tempOpening, ds, i, talent, expenses, [], [listing], talent', expenses')
    {
      RoleRowsStep(tempOpening, ds, i, talent, expenses, [], [listing], talent', expenses');
      talent', expenses' := AddActiveCandidate(tempOpening, talent', expenses', draw.candidates[i]);
    }
    RoleRowsEnd(tempOpening, ds, talent, expenses, [], [listing], talent', expenses');
    ghost var rows := CandidateRows(tempOpening, ds);
    assert [] + rows == rows;
    RoleStatusTally(tempOpening, rows, [listing] + CandidateCosts(tempOpening, ds));
  }

  /**
   * One iteration of the filled-roles loop (lines 168-187): a filled opening with its job-board and assessment
   * expenses, the hired candidate (and a referral bonus when hired by referral), then one rejected candidate
   * per draw, each followed by the expenses its stage calls for.
   */
  method AddFilledRole(
    openings: seq<Opening>, talent: seq<Talent>, expenses: seq<Expense>, today: Day, brn: Branch, draw: FilledDraw)
    returns (openings': seq<Opening>, talent': seq<Talent>, expenses': seq<Expense>)
    requires ValidFilledDraw(draw)
    ensures var o := GenerateFilledOpening(
        |openings|, brn, DEPARTMENTS[draw.departmentIndex], today, draw.durationSample, draw.extraDays);
      var hired := GenerateCurrentEmployee(o, draw.hiredSourceIndex);
      var rows := [hired] + CandidateRows(o, draw.candidates);
      var costs := HireExpenses(o, hired) + CandidateCosts(o, draw.candidates);
      openings' == openings + [o] && talent' == talent + rows && expenses' == expenses + costs
      && RowsOf(o, rows, costs) && RoleTallies(o, rows, costs)
      && TalentTally(rows, o.id, WithStatus(Rejected)) == |rows| - 1 == |draw.candidates|
  {
    var dpt := DEPARTMENTS[draw.departmentIndex];
    var filledJob := GenerateFilledOpening(|openings|, brn, dpt, today, draw.durationSample, draw.extraDays);
    openings' := openings + [filledJob];
    expenses' := expenses + [JobBoardExpense(filledJob)];
    expenses' := expenses' + [AssessmentExpense(filledJob)];
    var tempEmployee := GenerateCurrentEmployee(filledJob, draw.hiredSourceIndex);
    talent' := talent + [tempEmployee];
    if tempEmployee.source == Referral {
      expenses' := expenses' + [ReferralExpense(filledJob)];
    }
    HireStep(filledJob, tempEmployee);
    ghost var hireCosts := HireExpenses(filledJob, tempEmployee);
    ghost var ds := draw.candidates;
    assert ValidCandidates(filledJob, ds);
    assert expenses' == expenses + hireCosts;
    RoleRowsStart(filledJob, ds, talent, expenses, [tempEmployee], hireCosts);
    for i := 0 to |draw.candidates|
      invariant RoleRowsSoFar(filledJob, ds, i, talent, expenses, [tempEmployee], hireCosts, talent', expenses')
    {
      RoleRowsStep(filledJob, ds, i, talent, expenses, [tempEmployee], hireCosts, talent', expenses');
      talent', expenses' := AddRejectedCandidate(filledJob, talent', expenses', draw.candidates[i]);
    }
    RoleRowsEnd(filledJob, ds, talent, expenses, [tempEmployee], hireCosts, talent', expenses');
    RoleStatusTally(filledJob, [tempEmployee] + CandidateRows(filledJob, ds), hireCosts + CandidateCosts(filledJob, ds));
  }

  /** What appending one unfilled role does to the lists of a branch iteration. */
  lemma AppendUnfilledRole(
    openings: seq<Opening>, talent: seq<Talent>, expenses: seq<Expense>,
    prev: seq<Opening>, prevTalent: seq<Talent>, prevExpenses: seq<Expense>, today: Day, brn: Branch, d: UnfilledDraw,
    openings': seq<Opening>, talent': seq<Talent>, expenses': seq<Expense>)
    requires Consistent(prev, prevTalent, prevExpenses, today)
    requires ExtendsBy(openings, talent, expenses, prev, prevTalent, prevExpenses, brn.id)
    requires ValidUnfilledDraw(d)
    requires var o := GenerateUnfilledOpening(|prev|, brn, DEPARTMENTS[d.departmentIndex], today, d.durationSample);
      var rows := CandidateRows(o, d.candidates);
      var costs := [JobBoardExpense(o)] + CandidateCosts(o, d.candidates);
      openings' == prev + [o] && talent' == prevTalent + rows && expenses' == prevExpenses + costs
      && RowsOf(o, rows, costs) && RoleTallies(o, rows, costs)
    ensures Consistent(openings', talent', expenses', today)
    ensures ExtendsBy(openings, talent, expenses, openings', talent', expenses', brn.id)
    ensures forall c :: OpeningTally(openings', c, 0) == OpeningTally(prev, c, 0) + (if c == brn.id then 1 else 0)
    ensures forall c :: OpeningTally(openings', c, 1) == OpeningTally(prev, c, 1)
  {
    var o := GenerateUnfilledOpening(|prev|, brn, DEPARTMENTS[d.departmentIndex], today, d.durationSample);
    var rows, costs := CandidateRows(o, d.candidates), [JobBoardExpense(o)] + CandidateCosts(o, d.candidates);
    ExtendConsistent(prev, prevTalent, prevExpenses, today, o, rows, costs, d.departmentIndex);
    AppendRoleRows(openings, talent, expenses, prev, prevTalent, prevExpenses, brn.id, o, rows, costs);
  }

  /** Appending opening `o` of branch `b` with its own rows: the extension, and the one opening tally it adds to. */
  lemma AppendRoleRows(
    openings: seq<Opening>, talent: seq<Talent>, expenses: seq<Expense>,
    prev: seq<Opening>, prevTalent: seq<Talent>, prevExpenses: seq<Expense>, b: CodePoint,
    o: Opening, rows: seq<Talent>, costs: seq<Expense>)
    requires ExtendsBy(openings, talent, expenses, prev, prevTalent, prevExpenses, b)
    requires o.id == |prev| && o.branch == b && RowsOf(o, rows, costs)
    ensures ExtendsBy(openings, talent, expenses, prev + [o], prevTalent + rows, prevExpenses + costs, b)
    ensures forall c, f :: OpeningTally(prev + [o], c, f) == OpeningTally(prev, c, f) + (if c == b && f == o.filled then 1 else 0)
  {
    ExtendsByStep(openings, talent, expenses, prev, prevTalent, prevExpenses, o, rows, costs, b);
    OpeningTallySnoc(prev, o);
  }

  /** What appending one filled role does to the lists of a branch iteration. */
  lemma AppendFilledRole(
    openings: seq<Opening>, talent: seq<Talent>, expenses: seq<Expense>,
    prev: seq<Opening>, prevTalent: seq<Talent>, prevExpenses: seq<Expense>, today: Day, brn: Branch, d: FilledDraw,
    openings': seq<Opening>, talent': seq<Talent>, expenses': seq<Expense>)
    requires Consistent(prev, prevTalent, prevExpenses, today)
    requires ExtendsBy(openings, talent, expenses, prev, prevTalent, prevExpenses, brn.id)
    requires ValidFilledDraw(d)
    requires var o := GenerateFilledOpening(|prev|, brn, DEPARTMENTS[d.departmentIndex], today, d.durationSample, d.extraDays);
      var hired := GenerateCurrentEmployee(o, d.hiredSourceIndex);
      var rows := [hired] + CandidateRows(o, d.candidates);
      var costs := HireExpenses(o, hired) + CandidateCosts(o, d.candidates);
      openings' == prev + [o] && talent' == prevTalent + rows && expenses' == prevExpenses + costs
      && RowsOf(o, rows, costs) && RoleTallies(o, rows, costs)
    ensures Consistent(openings', talent', expenses', today)
    ensures ExtendsBy(openings, talent, expenses, openings', talent', expenses', brn.id)
    ensures forall c :: OpeningTally(openings', c, 0) == OpeningTally(prev, c, 0)
    ensures forall c :: OpeningTally(openings', c, 1) == OpeningTally(prev, c, 1) + (if c == brn.id then 1 else 0)
  {
    var o := GenerateFilledOpening(|prev|, brn, DEPARTMENTS[d.departmentIndex], today, d.durationSample, d.extraDays);
    var hired := GenerateCurrentEmployee(o, d.hiredSourceIndex);
    var rows, costs := [hired] + CandidateRows(o, d.candidates), HireExpenses(o, hired) + CandidateCosts(o, d.candidates);
    ExtendConsistent(prev, prevTalent, prevExpenses, today, o, rows, costs, d.departmentIndex);
    AppendRoleRows(openings, talent, expenses, prev, prevTalent, prevExpenses, brn.id, o, rows, costs);
  }

  /** After one more unfilled role the open-roles loop has appended the batch of one more draw. */
  lemma UnfilledRolesStep(
    openings: seq<Opening>, talent: seq<Talent>, expenses: seq<Expense>, today: Day, brn: Branch,
    draws: seq<UnfilledDraw>, i: nat,
    prev: seq<Opening>, prevTalent: seq<Talent>, prevExpenses: seq<Expense>,
    openings': seq<Opening>, talent': seq<Talent>, expenses': seq<Expense>)
    requires i < |draws| && forall j :: 0 <= j < |draws| ==> ValidUnfilledDraw(draws[j])
    requires Appends(openings, talent, expenses, UnfilledPass(openings, brn, today, draws, i), prev, prevTalent, prevExpenses)
    requires var d := draws[i];
      var o := GenerateUnfilledOpening(|prev|, brn, DEPARTMENTS[d.departmentIndex], today, d.durationSample);
      openings' == prev + [o] && talent' == prevTalent + CandidateRows(o, d.candidates)
      && expenses' == prevExpenses + ([JobBoardExpense(o)] + CandidateCosts(o, d.candidates))
    ensures Appends(openings, talent, expenses, UnfilledPass(openings, brn, today, draws, i + 1), openings', talent', expenses')
  {
    AppendsThen(openings, talent, expenses, UnfilledPass(openings, brn, today, draws, i),
      UnfilledRoleBatch(|prev|, brn, today, draws[i]), prev, prevTalent, prevExpenses, openings', talent', expenses');
  }

  /** After one more filled role the filled-roles loop has appended the batch of one more draw. */
  lemma FilledRolesStep(
    openings: seq<Opening>, talent: seq<Talent>, expenses: seq<Expense>, today: Day, brn: Branch,
    draws: seq<FilledDraw>, i: nat,
    prev: seq<Opening>, prevTalent: seq<Talent>, prevExpenses: seq<Expense>,
    openings': seq<Opening>, talent': seq<Talent>, expenses': seq<Expense>)
    requires i < |draws| && forall j :: 0 <= j < |draws| ==> ValidFilledDraw(draws[j])
    requires Appends(openings, talent, expenses, FilledPass(openings, brn, today, draws, i), prev, prevTalent, prevExpenses)
    requires var d := draws[i];
      var o := GenerateFilledOpening(|prev|, brn, DEPARTMENTS[d.departmentIndex], today, d.durationSample, d.extraDays);
      var hired := GenerateCurrentEmployee(o, d.hiredSourceIndex);
      openings' == prev + [o] && talent' == prevTalent + ([hired] + CandidateRows(o, d.candidates))
      && expenses' == prevExpenses + (HireExpenses(o, hired) + CandidateCosts(o, d.candidates))
    ensures Appends(openings, talent, expenses, FilledPass(openings, brn, today, draws, i + 1), openings', talent', expenses')
  {
    AppendsThen(openings, talent, expenses, FilledPass(openings, brn, today, draws, i),
      FilledRoleBatch(|prev|, brn, today, draws[i]), prev, prevTalent, prevExpenses, openings', talent', expenses');
  }

  /**
   * The open-roles loop (lines 150-164): `ctCurOpen` unfilled openings of branch `brn`, each with its
   * candidates, keeping the lists consistent. What it appends is exactly UnfilledPass of the first
   * `ctCurOpen` draws, with ids continuing from the openings already listed.
   */
  method AddUnfilledRoles(
    openings: seq<Opening>, talent: seq<Talent>, expenses: seq<Expense>, today: Day, brn: Branch,
    ctCurOpen: nat, draws: seq<UnfilledDraw>)
    returns (openings': seq<Opening>, talent': seq<Talent>, expenses': seq<Expense>)
    requires Consistent(openings, talent, expenses, today)
    requires ctCurOpen <= |draws| && forall i :: 0 <= i < |draws| ==> ValidUnfilledDraw(draws[i])
    ensures Consistent(openings', talent', expenses', today)
    ensures ExtendsBy(openings, talent, expenses, openings', talent', expenses', brn.id)
    ensures forall c :: OpeningTally(openings', c, 0) == OpeningTally(openings, c, 0) + (if c == brn.id then ctCurOpen else 0)
    ensures forall c :: OpeningTally(openings', c, 1) == OpeningTally(openings, c, 1)
    ensures Appends(openings, talent, expenses, UnfilledPass(openings, brn, today, draws, ctCurOpen), openings', talent', expenses')
  {
    openings', talent', expenses' := openings, talent, expenses;
    for i := 0 to ctCurOpen
      invariant Consistent(openings', talent', expenses', today)
      invariant Appends(openings, talent, expenses, UnfilledPass(openings, brn, today, draws, i), openings', talent', expenses')
      invariant ExtendsBy(openings, talent, expenses, openings', talent', expenses', brn.id)
      invariant forall c :: OpeningTally(openings', c, 0) == OpeningTally(openings, c, 0) + (if c == brn.id then i else 0)
      invariant forall c :: OpeningTally(openings', c, 1) == OpeningTally(openings, c, 1)
    {
      ghost var prev, prevTalent, prevExpenses := openings', talent', expenses';
      var d := draws[i];
      openings', talent', expenses' := AddUnfilledRole(openings', talent', expenses', today, brn, d);
      AppendUnfilledRole(openings, talent, expenses, prev, prevTalent, prevExpenses, today, brn, d, openings', talent', expenses');
      UnfilledRolesStep(openings, talent, expenses, today, brn, draws, i, prev, prevTalent, prevExpenses, openings', talent', expenses');
    }
  }

  /**
   * The filled-roles loop (lines 167-187): FILLED_JOBS_PER_DEPARTMENT filled openings of branch `brn`, each with
   * its hire and rejected candidates, keeping the lists consistent. What it appends is exactly FilledPass
   * of the draws, with ids continuing from the openings already listed.
   */
  method AddFilledRoles(
    openings: seq<Opening>, talent: seq<Talent>, expenses: seq<Expense>, today: Day, brn: Branch, draws: seq<FilledDraw>)
    returns (openings': seq<Opening>, talent': seq<Talent>, expenses': seq<Expense>)
    requires Consistent(openings, talent, expenses, today)
    requires |draws| == FILLED_JOBS_PER_DEPARTMENT && forall i :: 0 <= i < |draws| ==> ValidFilledDraw(draws[i])
    ensures Consistent(openings', talent', expenses', today)
    ensures ExtendsBy(openings, talent, expenses, openings', talent', expenses', brn.id)
    ensures forall c :: OpeningTally(openings', c, 0) == OpeningTally(openings, c, 0)
    ensures forall c :: (OpeningTally(openings', c, 1)
      == OpeningTally(openings, c, 1) + (if c == brn.id then FILLED_JOBS_PER_DEPARTMENT else 0))
    ensures Appends(openings, talent, expenses, FilledPass(openings, brn, today, draws, |draws|), openings', talent', expenses')
  {
    openings', talent', expenses' := openings, talent, expenses;
    for i := 0 to FILLED_JOBS_PER_DEPARTMENT
      invariant Consistent(openings', talent', expenses', today)
      invariant Appends(openings, talent, expenses, FilledPass(openings, brn, today, draws, i), openings', talent', expenses')
      invariant ExtendsBy(openings, talent, expenses, openings', talent', expenses', brn.id)
      invariant forall c :: OpeningTally(openings', c, 0) == OpeningTally(openings, c, 0)
      invariant forall c :: OpeningTally(openings', c, 1) == OpeningTally(openings, c, 1) + (if c == brn.id then i else 0)
    {
      ghost var prev, prevTalent, prevExpenses := openings', talent', expenses';
      var d := draws[i];
      openings', talent', expenses' := AddFilledRole(openings', talent', expenses', today, brn, d);
      AppendFilledRole(openings, talent, expenses, prev, prevTalent, prevExpenses, today, brn, d, openings', talent', expenses');
      FilledRolesStep(openings, talent, expenses, today, brn, draws, i, prev, prevTalent, prevExpenses, openings', talent', expenses');
    }
  }

  /**
   * One pass of the branch loop (lines 148-187): `max(0, randint(0, 10) - 3)` unfilled openings, then
   * FILLED_JOBS_PER_DEPARTMENT filled ones, all of this branch. The old lists are kept as they were, every
   * row added belongs to an opening added, and the lists stay consistent. What it appends is exactly
   * BranchPass of the draw.
   */
  method SimulateBranch(
    openings: seq<Opening>, talent: seq<Talent>, expenses: seq<Expense>, today: Day, brn: Branch, draw: BranchDraw)
    returns (openings': seq<Opening>, talent': seq<Talent>, expenses': seq<Expense>)
    requires Consistent(openings, talent, expenses, today)
    requires ValidBranchDraw(draw)
    ensures Consistent(openings', talent', expenses', today)
    ensures ExtendsBy(openings, talent, expenses, openings', talent', expenses', brn.id)
    ensures forall c :: (OpeningTally(openings', c, 0)
      == OpeningTally(openings, c, 0) + (if c == brn.id then Max(0, draw.openCountDraw - 3) else 0))
    ensures forall c :: (OpeningTally(openings', c, 1)
      == OpeningTally(openings, c, 1) + (if c == brn.id then FILLED_JOBS_PER_DEPARTMENT else 0))
    ensures Appends(openings, talent, expenses, BranchPass(openings, brn, today, draw), openings', talent', expenses')
  {
    var ctCurOpen := Max(0, draw.openCountDraw - 3);
    var midOpenings, midTalent, midExpenses := AddUnfilledRoles(openings, talent, expenses, today, brn, ctCurOpen, draw.unfilled);
    openings', talent', expenses' := AddFilledRoles(midOpenings, midTalent, midExpenses, today, brn, draw.filled);
    ExtendsByTrans(openings, talent, expenses, midOpenings, midTalent, midExpenses, openings', talent', expenses', brn.id);
    BranchAppends(openings, talent, expenses, today, brn, draw, midOpenings, midTalent, midExpenses, openings', talent', expenses');
  }

  /** The open roles' batch followed by the filled roles' batch is what one pass of the branch loop appends. */
  lemma BranchAppends(
    openings: seq<Opening>, talent: seq<Talent>, expenses: seq<Expense>, today: Day, brn: Branch, draw: BranchDraw,
    midOpenings: seq<Opening>, midTalent: seq<Talent>, midExpenses: seq<Expense>,
    openings': seq<Opening>, talent': seq<Talent>, expenses': seq<Expense>)
    requires ValidBranchDraw(draw)
    requires Appends(openings, talent, expenses, UnfilledPass(openings, brn, today, draw.unfilled, Max(0, draw.openCountDraw - 3)),
      midOpenings, midTalent, midExpenses)
    requires Appends(midOpenings, midTalent, midExpenses, FilledPass(midOpenings, brn, today, draw.filled, |draw.filled|),
      openings', talent', expenses')
    ensures Appends(openings, talent, expenses, BranchPass(openings, brn, today, draw), openings', talent', expenses')
  {
    AppendsThen(openings, talent, expenses,
      UnfilledPass(openings, brn, today, draw.unfilled, Max(0, draw.openCountDraw - 3)),
      FilledPass(midOpenings, brn, today, draw.filled, |draw.filled|),
      midOpenings, midTalent, midExpenses, openings', talent', expenses');
  }

  /**
   * The lists after the first `b` passes of the branch loop: consistent, the generation pass over those
   * branches, and per branch id the filled and unfilled openings those branches bring.
   */
  predicate SimulatedThrough(
    branches: seq<Branch>, draws: seq<BranchDraw>, today: Day, b: nat,
    openings: seq<Opening>, talent: seq<Talent>, expenses: seq<Expense>)
    requires b <= |branches| == |draws| && forall j :: 0 <= j < |draws| ==> ValidBranchDraw(draws[j])
  {
    && Consistent(openings, talent, expenses, today)
    && Batch(openings, talent, expenses) == SimulationPass(branches, draws, today, b)
    && (forall c :: OpeningTally(openings, c, 1) == FILLED_JOBS_PER_DEPARTMENT * BranchTally(branches[..b], c))
    && (forall c :: OpeningTally(openings, c, 0) == UnfilledCount(branches, draws, c, b))
  }

  /** Before the branch loop the lists are empty, as the generation pass over no branch is. */
  lemma SimulatedNone(branches: seq<Branch>, draws: seq<BranchDraw>, today: Day)
    requires |draws| == |branches| && forall j :: 0 <= j < |draws| ==> ValidBranchDraw(draws[j])
    ensures SimulatedThrough(branches, draws, today, 0, [], [], [])
  {
    assert branches[..0] == [];
  }

  /** One more pass of the branch loop, as SimulateBranch states it, keeps the lists simulated one branch further. */
  lemma SimulatedThroughStep(
    branches: seq<Branch>, draws: seq<BranchDraw>, today: Day, b: nat,
    openings: seq<Opening>, talent: seq<Talent>, expenses: seq<Expense>,
    openings': seq<Opening>, talent': seq<Talent>, expenses': seq<Expense>)
    requires b < |branches| == |draws| && forall j :: 0 <= j < |draws| ==> ValidBranchDraw(draws[j])
    requires SimulatedThrough(branches, draws, today, b, openings, talent, expenses)
    requires Consistent(openings', talent', expenses', today)
    requires forall c :: (OpeningTally(openings', c, 0)
      == OpeningTally(openings, c, 0) + (if c == branches[b].id then Max(0, draws[b].openCountDraw - 3) else 0))
    requires forall c :: (OpeningTally(openings', c, 1)
      == OpeningTally(openings, c, 1) + (if c == branches[b].id then FILLED_JOBS_PER_DEPARTMENT else 0))
    requires Appends(openings, talent, expenses, BranchPass(openings, branches[b], today, draws[b]), openings', talent', expenses')
    ensures SimulatedThrough(branches, draws, today, b + 1, openings', talent', expenses')
  {
    SimulationTallies(branches, draws, b, openings, openings');
    SimulationStep(branches, draws, today, b, openings, talent, expenses, openings', talent', expenses');
  }

  /**
   * The generation pass over all branches (lines 146-187). The result is consistent and is exactly
   * SimulationPass of the draws: each branch's batch in branch order. Per branch id it holds exactly
   * FILLED_JOBS_PER_DEPARTMENT filled openings and the drawn number of unfilled ones, at most 7, for each
   * branch carrying that id.
   */
  method Simulate(branches: seq<Branch>, draws: seq<BranchDraw>, today: Day)
    returns (openings: seq<Opening>, talent: seq<Talent>, expenses: seq<Expense>)
    requires |draws| == |branches|
    requires forall b :: 0 <= b < |draws| ==> ValidBranchDraw(draws[b])
    ensures Consistent(openings, talent, expenses, today)
    ensures Batch(openings, talent, expenses) == SimulationPass(branches, draws, today, |branches|)
    ensures forall c :: OpeningTally(openings, c, 1) == FILLED_JOBS_PER_DEPARTMENT * BranchTally(branches, c)
    ensures forall c :: OpeningTally(openings, c, 0) == UnfilledCount(branches, draws, c, |branches|)
    ensures forall c :: OpeningTally(openings, c, 0) <= 7 * BranchTally(branches, c)
  {
    openings, talent, expenses := [], [], [];
    SimulatedNone(branches, draws, today);
    for b := 0 to |branches|
      invariant SimulatedThrough(branches, draws, today, b, openings, talent, expenses)
    {
      ghost var prev, prevTalent, prevExpenses := openings, talent, expenses;
      openings, talent, expenses := SimulateBranch(openings, talent, expenses, today, branches[b], draws[b]);
      SimulatedThroughStep(branches, draws, today, b, prev, prevTalent, prevExpenses, openings, talent, expenses);
    }
    SimulatedAll(branches, draws, today, openings, talent, expenses);
  }

  /**
   * After every branch: the lists are the generation pass of all of them, and per branch id there are exactly
   * FILLED_JOBS_PER_DEPARTMENT filled openings and the drawn number of unfilled ones, at most 7, for each branch
   * carrying that id.
   */
  lemma SimulatedAll(
    branches: seq<Branch>, draws: seq<BranchDraw>, today: Day,
    openings: seq<Opening>, talent: seq<Talent>, expenses: seq<Expense>)
    requires |draws| == |branches| && forall b :: 0 <= b < |draws| ==> ValidBranchDraw(draws[b])
    requires SimulatedThrough(branches, draws, today, |branches|, openings, talent, expenses)
    ensures Consistent(openings, talent, expenses, today)
    ensures Batch(openings, talent, expenses) == SimulationPass(branches, draws, today, |branches|)
    ensures forall c :: OpeningTally(openings, c, 1) == FILLED_JOBS_PER_DEPARTMENT * BranchTally(branches, c)
    ensures forall c :: OpeningTally(openings, c, 0) == UnfilledCount(branches, draws, c, |branches|)
    ensures forall c :: OpeningTally(openings, c, 0) <= 7 * BranchTally(branches, c)
  {
    assert branches[..|branches|] == branches;
    forall c ensures UnfilledCount(branches, draws, c, |branches|) <= 7 * BranchTally(branches, c) {
      UnfilledCountBound(branches, draws, c, |branches|);
    }
  }

  /** One pass of the branch loop brings both per-branch tallies of the openings up to the next branch. */
  lemma SimulationTallies(branches: seq<Branch>, draws: seq<BranchDraw>, b: nat, openings: seq<Opening>, openings': seq<Opening>)
    requires b < |branches| == |draws|
    requires forall c :: OpeningTally(openings, c, 1) == FILLED_JOBS_PER_DEPARTMENT * BranchTally(branches[..b], c)
    requires forall c :: OpeningTally(openings, c, 0) == UnfilledCount(branches, draws, c, b)
    requires forall c :: (OpeningTally(openings', c, 0)
      == OpeningTally(openings, c, 0) + (if c == branches[b].id then Max(0, draws[b].openCountDraw - 3) else 0))
    requires forall c :: (OpeningTally(openings', c, 1)
      == OpeningTally(openings, c, 1) + (if c == branches[b].id then FILLED_JOBS_PER_DEPARTMENT else 0))
    ensures forall c :: OpeningTally(openings', c, 1) == FILLED_JOBS_PER_DEPARTMENT * BranchTally(branches[..b + 1], c)
    ensures forall c :: OpeningTally(openings', c, 0) == UnfilledCount(branches, draws, c, b + 1)
  {
    BranchTallySnoc(branches, b);
  }

  /** One pass of the branch loop appends the next branch's batch, with ids continuing from the last. */
  lemma SimulationStep(
    branches: seq<Branch>, draws: seq<BranchDraw>, today: Day, b: nat,
    openings: seq<Opening>, talent: seq<Talent>, expenses: seq<Expense>,
    openings': seq<Opening>, talent': seq<Talent>, expenses': seq<Expense>)
    requires b < |branches| == |draws| && forall j :: 0 <= j < |draws| ==> ValidBranchDraw(draws[j])
    requires Batch(openings, talent, expenses) == SimulationPass(branches, draws, today, b)
    requires Appends(openings, talent, expenses, BranchPass(openings, branches[b], today, draws[b]), openings', talent', expenses')
    ensures Batch(openings', talent', expenses') == SimulationPass(branches, draws, today, b + 1)
  {
  }

  // ---------------------------------------------------------------- what the invariant gives

  /** A tally of one hired row pins down that row, and whether the opening was filled by referral. */
  lemma {:induction false} SoleHiredRow(rows: seq<Talent>, id: OpeningId)
    requires TalentTally(rows, id, WithStatus(Hired)) == 1
    ensures exists i ::
      0 <= i < |rows| && rows[i].roleId == id && rows[i].status == Hired
      && (forall k :: 0 <= k < |rows| && rows[k].roleId == id && rows[k].status == Hired ==> k == i)
      && TalentTally(rows, id, HiredByReferral) == (if rows[i].source == Referral then 1 else 0)
  {
    var n := |rows| - 1;
    var init := rows[..n];
    if TalentHit(rows[n], id, WithStatus(Hired)) == 1 {
      TalentTallyZero(init, id, WithStatus(Hired));
      TalentTallyZero(init, id, HiredByReferral);
      assert forall k :: 0 <= k < n ==> rows[k] == init[k];
      assert TalentTally(rows, id, HiredByReferral) == TalentHit(rows[n], id, HiredByReferral);
      assert TalentTally(rows, id, HiredByReferral) == (if rows[n].source == Referral then 1 else 0);
      assert 0 <= n < |rows| && rows[n].roleId == id && rows[n].status == Hired;
    } else {
      SoleHiredRow(init, id);
      var i :| 0 <= i < |init| && init[i].roleId == id && init[i].status == Hired
        && (forall k :: 0 <= k < |init| && init[k].roleId == id && init[k].status == Hired ==> k == i)
        && TalentTally(init, id, HiredByReferral) == (if init[i].source == Referral then 1 else 0);
      assert forall k :: 0 <= k < n ==> rows[k] == init[k];
      assert rows[i] == init[i];
      assert TalentHit(rows[n], id, HiredByReferral) == 0;
      assert TalentTally(rows, id, HiredByReferral) == TalentTally(init, id, HiredByReferral);
      assert 0 <= i < |rows| && rows[i].roleId == id && rows[i].status == Hired;
    }
  }

  /**
   * In consistent lists a filled opening has exactly one hired row, and it has a referral-bonus expense
   * (at most one) exactly when that row's source is a referral.
   */
  lemma FilledOpeningHires(
    openings: seq<Opening>, talent: seq<Talent>, expenses: seq<Expense>, today: Day, j: nat)
    requires Consistent(openings, talent, expenses, today)
    requires j < |openings| && openings[j].filled == 1
    ensures exists i ::
      0 <= i < |talent| && talent[i].roleId == j && talent[i].status == Hired
      && (forall k :: 0 <= k < |talent| && talent[k].roleId == j && talent[k].status == Hired ==> k == i)
      && ExpenseTally(expenses, j, InternalReferralBonus) <= 1
      && ((exists k :: 0 <= k < |expenses| && expenses[k].roleId == j && expenses[k].category == InternalReferralBonus)
          <==> talent[i].source == Referral)
  {
    assert RoleTallies(openings[j], talent, expenses);
    SoleHiredRow(talent, j);
    ExpenseTallyZero(expenses, j, InternalReferralBonus);
  }

  /** In consistent lists an unfilled opening has no hired row and no referral bonus. */
  lemma UnfilledOpeningHiresNobody(
    openings: seq<Opening>, talent: seq<Talent>, expenses: seq<Expense>, today: Day, j: nat)
    requires Consistent(openings, talent, expenses, today)
    requires j < |openings| && openings[j].filled == 0
    ensures forall k :: 0 <= k < |talent| ==> !(talent[k].roleId == j && talent[k].status == Hired)
    ensures forall k :: 0 <= k < |expenses| ==> !(expenses[k].roleId == j && expenses[k].category == InternalReferralBonus)
  {
    assert RoleTallies(openings[j], talent, expenses);
    TalentTallyZero(talent, j, WithStatus(Hired));
    TalentTallyZero(talent, j, HiredByReferral);
    ExpenseTallyZero(expenses, j, InternalReferralBonus);
  }
}
