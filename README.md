# Selection data simulation, modelled in Dafny

`SelectionDataSimulation.py` generates synthetic recruiting data for an organisation. The organisation has
ten lettered branches and six departments. For each branch the script produces three lists:

- **openings**: a few unfilled roles and `FILLED_JOBS_PER_DEPARTMENT` (200) filled roles;
- **talent**: the active candidates of each unfilled role, and one hired plus 10-30 rejected candidates of
  each filled role;
- **expenses**: one job-board listing fee per role; one personnel-assessment fee for every filled role,
  whoever was hired; and a further assessment fee, an onsite-travel cost or a referral bonus as each
  candidate's stage or the hire's source calls for.

This project models that generation pass and its helpers, and proves what the generated lists guarantee.

Module layout, following the script's structure:

- `Wrappers`: `Option` and `Result`.
- `CharLists`: `char_range` and `quick_char_list`.
  - Characters are Python code points, 0..0x10FFFF.
  - `chr`'s `ValueError` is the `Err` result.
- `OrgStructure`:
  - the configuration constants;
  - the department table;
  - `generate_branches`.
- `Dates`:
  - day numbers for the date arithmetic;
  - `dt_to_string` on calendar triples, with its parse-back round trip.
- `Openings`:
  - `new_opening_duration` (the clamp at 0);
  - the two opening generators.
- `TalentPool`: the talent row and its three generators.
- `Expenses`: the expense row and its four generators.
- `Simulation`: the driver loop.
  - It is imperative Dafny: a loop over branches (`Simulate`) whose body (`SimulateBranch`) runs the
    unfilled-role loop (`AddUnfilledRoles`) and the filled-role loop (`AddFilledRoles`).
  - Their bodies are `AddUnfilledRole` and `AddFilledRole`, each with its own candidate loop, whose body is
    `AddActiveCandidate` or `AddRejectedCandidate`.
  - What the candidate loops append is specified by `CandidateRows` and `CandidateCosts`, which fold the
    talent generators and the stage-expense rule over the candidate draws.
  - What the role loops and the branch loop append is specified by the reference folds `UnfilledPass`,
    `FilledPass`, `BranchPass` and `SimulationPass`. They build a `Batch` (openings, talent, expenses)
    role by role from the draws, giving each role the id after the openings already listed.
  - The lists are sequences that the methods extend.

Modelling the randomness and the ids:

- Every random draw becomes an input.
  - The draws are `randint`, the `random.choices` picks, the rounded normal sample and the travel amount.
  - They are grouped in the draw datatypes `CandidateDraw`, `UnfilledDraw`, `FilledDraw` and
    `BranchDraw`.
  - Each group has a `Valid...` predicate holding exactly the ranges the script draws from.
- `new_uuid` becomes a fresh-id supply: the opening appended k-th gets id k.

The central invariant is `Simulation.Consistent`. It says:

- opening ids are distinct;
- every opening keeps its date invariants and belongs to a configured department;
- every talent and expense row refers to an existing opening and carries that opening's post date as
  its sort key;
- active candidates belong only to unfilled roles, and hired and rejected candidates only to filled ones;
- for every opening, the expense counts per category equal what its candidates' stages and sources call
  for (`Balanced`), and its candidate counts lie in the script's ranges.

## Model

| member | source | states |
|---|---|---|
| CharLists.Span | SelectionDataSimulation.py:19 | `range(lo, hi + 1)` over code points: length `hi - lo + 1` (0 when empty), and element i is `lo + i` |
| CharLists.CharRange | SelectionDataSimulation.py:9-21 | the loop returns every code point from the smaller to the larger argument, inclusive and ascending (length `abs(c1 - c2) + 1`), and the result does not depend on the argument order |
| CharLists.QuickCharList | SelectionDataSimulation.py:23-27 | fails with `ValueError` exactly when `chr(65 + x - 1)` is out of range. For x >= 1 it gives the x code points from 'A'. For x < 1 the swap in `char_range` gives the `2 - x` code points from `chr(64 + x)` up to 'A' |
| CharLists.QuickCharListLetters | SelectionDataSimulation.py:23-27 | for 1 <= x <= 26 the list is the first x capital letters, distinct, ending at `chr(64 + x)` |
| CharLists.QuickCharListPastZ | SelectionDataSimulation.py:23-27 | `quick_char_list(27)` does not fail: it gives 27 code points ending with '[', one past 'Z' |
| CharLists.QuickCharListZero | SelectionDataSimulation.py:23-27 | `quick_char_list(0)` is `['@', 'A']`, not empty |
| OrgStructure.GenerateBranches | SelectionDataSimulation.py:39-49 | succeeds exactly when `quick_char_list(total)` does. Branch i has the i-th character as id and the i-th efficiency draw as modifier. For 1..26 branches the ids are the distinct letters from 'A' |
| OrgStructure.ConfiguredBranchLetters | SelectionDataSimulation.py:129 | `quick_char_list(10)`, which names the configured branches, is the letters 'A'..'J' |
| Dates.PadDigitsRoundTrip | SelectionDataSimulation.py:74-76 | reading back a zero-padded `%Y`/`%m`/`%d` field gives the number |
| Dates.DigitsValueRoundTrip | SelectionDataSimulation.py:74-76 | padding a digit field's value to its width gives the field back |
| Dates.DtToString | SelectionDataSimulation.py:69-77 | `None` maps to `None` and only `None` does. A date maps to a ten-character `YYYY-MM-DD` string of digits and dashes |
| Dates.DtToStringRoundTrip | SelectionDataSimulation.py:69-77 | parsing the formatted string gives the date back, so the format loses nothing |
| Dates.DtToStringOnto | SelectionDataSimulation.py:69-77 | every well-formed string that names a valid date is the formatting of that date |
| Openings.NewOpeningDuration | SelectionDataSimulation.py:34-37 | the duration is never negative: it is the rounded sample when that is at least 0, and 0 otherwise |
| Openings.GenerateUnfilledOpening | SelectionDataSimulation.py:51-57 | the fields are the fresh id, the branch letter, the department name, filled 0, no fill date and the clamped duration, with the post date `duration` days before today |
| Openings.GenerateFilledOpening | SelectionDataSimulation.py:59-67 | filled 1, posted `duration + extraDays` days before today, with 1 <= extraDays <= 365, and filled `duration` days after posting, hence at least a day before today |
| TalentPool.GenerateActiveTalent | SelectionDataSimulation.py:79-87 | an `active` row of the job with the chosen source and stage. Its stage is never Resume Screening, and its sort key is the job's post date |
| TalentPool.GenerateCurrentEmployee | SelectionDataSimulation.py:89-94 | a `hired` row of the job with the chosen source, no stage, and the job's post date as sort key |
| TalentPool.SourceLabelInjective | SelectionDataSimulation.py:82 | the four source texts are distinct, so the test for "Referral" (line 175) picks out referral hires only |
| TalentPool.StatusLabelInjective | SelectionDataSimulation.py:79-104 | the three status texts `active`, `hired` and `rejected` are distinct |
| TalentPool.StageLabelInjective | SelectionDataSimulation.py:100 | the five stage texts are distinct, so the stage tests (lines 159, 161, 181, 183) pick out one stage each |
| TalentPool.GenerateRejectedTalent | SelectionDataSimulation.py:96-104 | a `rejected` row of the job with the chosen source and one of the five stages |
| Expenses.JobBoardExpense | SelectionDataSimulation.py:106-108 | a job-board listing of 200 for the job, keyed by its post date |
| Expenses.AssessmentExpense | SelectionDataSimulation.py:110-112 | a personnel assessment of 50 for the job |
| Expenses.OnsiteTravelExpense | SelectionDataSimulation.py:114-116 | an onsite-travel cost for the job carrying the drawn amount, which lies within [30, 500] |
| Expenses.CategoryLabelInjective | SelectionDataSimulation.py:106-120 | the four category texts are distinct, so the category column tells the expense kinds apart |
| Expenses.ReferralExpense | SelectionDataSimulation.py:118-120 | an internal referral bonus of 500 for the job |
| Simulation.ActiveStageRule | SelectionDataSimulation.py:159-163 | for an active candidate the expense rule gives one assessment for KSAO Assessment, an assessment and an onsite trip for Onsite, and nothing otherwise |
| Simulation.RejectedStageRule | SelectionDataSimulation.py:181-185 | for a rejected candidate the rule gives an assessment for KSAO Assessment, an assessment and a trip for Onsite or Offer and Negotiation, and nothing otherwise |
| Simulation.StageExpensesTally | SelectionDataSimulation.py:159-163 | one candidate's extra expenses add one assessment when its stage calls for it, one trip when its stage calls for it, and no listing or bonus. All of them belong to the job and carry valid amounts |
| Simulation.TalentTallyAppend | SelectionDataSimulation.py:164 | counting rows is additive over appended lists |
| Simulation.ExpenseTallyAppend | SelectionDataSimulation.py:153 | counting expenses is additive over appended lists |
| Simulation.StatusTallies | SelectionDataSimulation.py:157-187 | every row of one opening is active, hired or rejected: the three status counts add up to the number of rows |
| Simulation.CandidateStep | SelectionDataSimulation.py:157-164 | appending a candidate with its stage expenses keeps the opening's rows fitting and its expense counts balanced, and adds one to its status count |
| Simulation.ListingStep | SelectionDataSimulation.py:152-154 | a new unfilled role with its listing fee alone is balanced: no hire, one listing, no assessment, trip or bonus |
| Simulation.HireStep | SelectionDataSimulation.py:169-176 | a filled role with its listing, its assessment, its hire and (for a referral hire only) a bonus is balanced |
| Simulation.RoleTalliesAppend | SelectionDataSimulation.py:146-187 | rows appended for other openings leave an opening's counts unchanged |
| Simulation.ExtendConsistent | SelectionDataSimulation.py:150-187 | appending a fresh, valid opening in a configured department, together with its own balanced rows, keeps the three lists consistent |
| Simulation.CandidateRowsAt | SelectionDataSimulation.py:157-158 | there is one candidate row per draw, and the k-th row is the talent generated from the k-th draw: active on an unfilled role (line 158), rejected on a filled one (line 180) |
| Simulation.CandidatesSnoc | SelectionDataSimulation.py:157-164 | one more candidate draw appends its generated row to the rows, and its stage expenses to the expenses |
| Simulation.CandidatePrefixStep | SelectionDataSimulation.py:179-187 | the same step after the head rows a role starts with (the listing, or the hire and its fees) |
| Simulation.CandidateCostsTally | SelectionDataSimulation.py:159-163 | the candidates' expenses hold one assessment per candidate whose stage needs one and one trip per candidate whose stage needs one, and no listing or bonus |
| Simulation.RoleRowsStart | SelectionDataSimulation.py:153-157 | before the first candidate, the role's rows are just its balanced head rows |
| Simulation.RoleRowsStep | SelectionDataSimulation.py:157-164 | one pass of a candidate loop extends the rows by exactly the next draw's candidate and its stage expenses, and keeps them fitting and balanced |
| Simulation.RoleRowsEnd | SelectionDataSimulation.py:179-187 | after the candidate loop, the role's rows are its head rows followed by every draw's candidate, in draw order, and its expenses likewise |
| Simulation.RoleStatusTally | SelectionDataSimulation.py:157-187 | the rows of an unfilled role are all active; all but one row of a filled role are rejected |
| Simulation.AddActiveCandidate | SelectionDataSimulation.py:157-164 | one pass of the active-candidate loop: appends exactly the generated active row, and exactly the expenses its stage calls for |
| Simulation.AddRejectedCandidate | SelectionDataSimulation.py:179-187 | one pass of the rejected-candidate loop: appends exactly the generated rejected row, and exactly the expenses its stage calls for |
| Simulation.AddUnfilledRole | SelectionDataSimulation.py:151-164 | appends the generated unfilled opening with the next id. Its rows are the active candidates generated from the draws, in order. Its expenses are the listing, then each candidate's stage expenses. All of them fit it and are balanced, and it has exactly the drawn number (0-50) of active candidates |
| Simulation.AddFilledRole | SelectionDataSimulation.py:168-187 | appends the generated filled opening with the next id. Its rows are the hired employee, then the rejected candidates generated from the draws. Its expenses are the listing, the assessment and (for a referral hire) the bonus, then each candidate's stage expenses. There are exactly the drawn number (10-30) of rejected rows |
| Simulation.ExtendsByStep | SelectionDataSimulation.py:150-187 | appending an opening of this branch with its own rows keeps it true that the old lists are prefixes, the new openings are this branch's, and the new rows belong to new openings |
| Simulation.ExtendsByTrans | SelectionDataSimulation.py:146-187 | the unfilled-role pass followed by the filled-role pass of one branch is one extension of that kind |
| Simulation.AppendRoleRows | SelectionDataSimulation.py:154 | appending one opening of this branch extends the lists that way, and adds one to the opening count of its branch and filled flag only |
| Simulation.AppendUnfilledRole | SelectionDataSimulation.py:150-164 | what `AddUnfilledRole` appends keeps the lists consistent, keeps them an extension by this branch, and adds one unfilled opening to this branch |
| Simulation.AppendFilledRole | SelectionDataSimulation.py:167-187 | what `AddFilledRole` appends keeps the lists consistent, keeps them an extension by this branch, and adds one filled opening to this branch |
| Simulation.AddUnfilledRoles | SelectionDataSimulation.py:150-164 | the open-roles loop keeps the lists consistent and appends exactly `UnfilledPass` of the first `ctCurOpen` draws: role i is generated from draw i with its listing and candidates, in order, with ids continuing from the openings already listed. It adds exactly `ctCurOpen` unfilled openings, all of this branch, whose rows are the only rows added |
| Simulation.AddFilledRoles | SelectionDataSimulation.py:167-187 | the filled-roles loop keeps the lists consistent and appends exactly `FilledPass` of the 200 draws: role i is generated from draw i with its fees, hire and rejected candidates, in order, with ids continuing from the openings already listed. It adds exactly 200 filled openings, all of this branch, whose rows are the only rows added |
| Simulation.SimulateBranch | SelectionDataSimulation.py:148-187 | keeps the lists consistent and appends exactly `BranchPass` of the draw: the open-roles batch, then the filled-roles batch. It adds `max(0, draw - 3)` unfilled and exactly 200 filled openings, all of this branch and none of any other, and every talent and expense row added belongs to an opening added in this pass |
| Simulation.Simulate | SelectionDataSimulation.py:146-187 | from empty lists the whole pass yields consistent lists that are exactly `SimulationPass` of the draws, each branch's batch in branch order. Per branch id there are exactly 200 filled openings and exactly the drawn `max(0, randint(0, 10) - 3)` unfilled ones of each branch with that id, at most 7 per branch |
| Simulation.UnfilledPassOpenings | SelectionDataSimulation.py:150-156 | the open-roles fold over n draws lists n openings, the j-th generated from draw j with the id after the openings before and j more |
| Simulation.FilledPassOpenings | SelectionDataSimulation.py:167-172 | the filled-roles fold over n draws lists n openings, the j-th generated from draw j, with its extra days, and the id after the openings before and j more |
| Simulation.UnfilledCountBound | SelectionDataSimulation.py:149 | each branch adds at most 7 unfilled openings, so the count per id is at most 7 per branch carrying it |
| Simulation.AppendsThen | SelectionDataSimulation.py:146-187 | appending one batch and then another appends the two in sequence |
| Simulation.UnfilledRolesStep | SelectionDataSimulation.py:150-164 | one more unfilled role, with the next id, extends what the open-roles loop has appended to the fold over one more draw |
| Simulation.FilledRolesStep | SelectionDataSimulation.py:167-187 | one more filled role, with the next id, extends what the filled-roles loop has appended to the fold over one more draw |
| Simulation.BranchAppends | SelectionDataSimulation.py:148-187 | the open-roles batch followed by the filled-roles batch, started after it, is the branch's batch |
| Simulation.SimulatedNone | SelectionDataSimulation.py:138-146 | the empty lists are consistent and are the fold over no branch, with no opening for any id |
| Simulation.SimulatedThroughStep | SelectionDataSimulation.py:146-187 | one more branch pass, as `SimulateBranch` states it, brings the lists, the fold and both tallies one branch further |
| Simulation.SimulatedAll | SelectionDataSimulation.py:146-187 | after the last branch the lists are the fold over all branches, with 200 filled and the drawn number of unfilled openings per branch, at most 7 |
| Simulation.SimulationTallies | SelectionDataSimulation.py:149-187 | one branch pass raises the filled and unfilled counts of that branch's id alone, keeping them equal to the counts the branches so far call for |
| Simulation.SimulationStep | SelectionDataSimulation.py:146-187 | appending the next branch's batch gives the fold over one more branch |
| Simulation.SoleHiredRow | SelectionDataSimulation.py:173-176 | a hired count of one pins down the single hired row, and the referral-hire count is 1 exactly when that row came by referral |
| Simulation.FilledOpeningHires | SelectionDataSimulation.py:167-187 | in consistent lists every filled opening has exactly one hired candidate, and has a referral bonus (at most one) exactly when that candidate came by referral |
| Simulation.UnfilledOpeningHiresNobody | SelectionDataSimulation.py:150-164 | in consistent lists an unfilled opening has no hired candidate and no referral bonus |

## Left out

- Random number generation:
  - `np.random.normal`, `random.randint` and `random.choices` with their weights become oracle inputs.
  - The model keeps the range of every draw and the set each choice picks from, but not the distributions.
  - The per-call randomised weights of the stage choices are not modelled, since only the chosen index
    matters to the output.
- `new_uuid` is not modelled. Its base64 formatting of a random UUID is replaced by the fresh-id supply,
  so the model relies on ids being distinct, not on their text.
- `datetime.today()`:
  - One `today` is a parameter shared by all generators. The script calls the clock again in every
    generator, so a run crossing midnight could mix two days.
  - Openings and talent rows hold day numbers, not the `dt_to_string` text.
  - The conversion from a day number to a calendar date is not modelled. `dt_to_string` is modelled on
    its own, on calendar triples.
- Openings.NewOpeningDuration: takes the rounded normal sample as an input. The mean `MEAN_ROLL_FILL * (1 + branchMod + dptMod)`, the standard deviation 7 and Python's banker's rounding are not modelled. The branch and department modifiers are therefore carried as data but unused.
- Dates.DtToString: always pads `%Y` to four digits. Some platform `strftime` implementations print years below 1000 with fewer digits, and that variant is not modelled.
- The dataframe, sorting, ID-column and CSV stage (SelectionDataSimulation.py:190-222) is not modelled: it is pandas I/O on the finished lists.
- `BRANCH_EFFICIENCY_SD` and `MEAN_ROLL_FILL` appear only inside the normal draws, so they are not modelled.
- Simulate: takes the branch list as a parameter. It does not call `generate_branches(10)` itself; OrgStructure.ConfiguredBranchLetters shows that call names the branches 'A'..'J'.
- CharLists.QuickCharList: follows the code, not the docstring. The function does not reject x < 1: x = 0 gives `['@', 'A']`, and for x <= 0 the list runs from `chr(64 + x)` up to 'A'. Any x with 64 + x inside the code-point range succeeds, so x = 27 gives 'A'..'[' and does not fail.
- Talent and expense rows are separate sequences. Within each list the generated order is the script's. The interleaving of appends between the two lists (expenses before the talent row in the candidate loops) does not show in either list, so it is not modelled.
