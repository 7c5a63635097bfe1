/** Configuration constants, branches and departments (SelectionDataSimulation.py:39-49, 123-135). */
module OrgStructure {
  import opened Wrappers
  import opened CharLists

  const FILLED_JOBS_PER_DEPARTMENT: nat := 200
  const RANGE_OF_DATA_YRS: nat := 1
  /** The argument of the `generate_branches` call that builds BRANCHES (line 129). */
  const BRANCH_COUNT: nat := 10

  /** A branch: a letter id and an efficiency modifier, a float rounded to two decimals, kept in hundredths. */
  datatype Branch = Branch(id: CodePoint, modifier: int)

  /** A department: its name and its fixed fill modifier, in hundredths. */
  datatype Department = Department(name: string, modifier: int)

  const DEPARTMENTS: seq<Department> := [
    Department("Human Resources", 20),
    Department("Finance and Accounting", 0),
    Department("Marketing", 15),
    Department("Sales", 10),
    Department("Information Technology", -10),
    Department("Customer Service and Support", -30)
  ]

  /** `name` is the name of one of the configured departments. */
  predicate IsDepartment(name: string)
  {
    exists k :: 0 <= k < |DEPARTMENTS| && DEPARTMENTS[k].name == name
  }

  /**
   * `generate_branches(total)`: one branch per code point of `quick_char_list(total)`, in order; the i-th
   * efficiency draw is `modifiers[i]`. An end point outside chr's domain raises chr's ValueError.
   */
  method GenerateBranches(total: int, modifiers: seq<int>) returns (r: Result<seq<Branch>, Error>)
    requires QuickCharList(total).Ok? ==> |QuickCharList(total).value| <= |modifiers|
    ensures r.Ok? <==> QuickCharList(total).Ok?
    ensures r.Ok? ==>
      (|r.value| == |QuickCharList(total).value|
       && forall i :: 0 <= i < |r.value| ==> r.value[i] == Branch(QuickCharList(total).value[i], modifiers[i]))
    ensures 1 <= total <= 26 ==>
      (r.Ok? && |r.value| == total
       && forall i :: 0 <= i < total ==> r.value[i].id == ORD_A + i && r.value[i].id <= ORD_Z)
  {
    var chars := QuickCharList(total);
    if chars.Err? {
      return Err(chars.error);
    }
    var cs := chars.value;
    var branchList: seq<Branch> := [];
    for i := 0 to |cs|
      invariant |branchList| == i
      invariant forall k :: 0 <= k < i ==> branchList[k] == Branch(cs[k], modifiers[k])
    {
      branchList := branchList + [Branch(cs[i], modifiers[i])];
    }
    return Ok(branchList);
  }

  /**
   * The configured branches, `generate_branches(10)`, are lettered 'A' to 'J': the character list behind them,
   * which GenerateBranches pairs with the efficiency draws one by one.
   */
  lemma ConfiguredBranchLetters()
    ensures QuickCharList(BRANCH_COUNT) == Ok([65, 66, 67, 68, 69, 70, 71, 72, 73, 74])
  {
    var cs := QuickCharList(BRANCH_COUNT).value;
    assert |cs| == 10 && forall i :: 0 <= i < 10 ==> cs[i] == 65 + i;
    assert cs == [65, 66, 67, 68, 69, 70, 71, 72, 73, 74];
  }
}
