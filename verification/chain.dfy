/**
 * Chain of Responsibility: purchase requests travel along a chain of
 * approvers; the first whose authority covers the amount approves it, and an
 * approver that declines with no successor reports that it cannot be approved.
 */
module ChainOfResponsibility {

  /** The concrete approvers. */
  datatype Role = DepartmentManager | FinanceManager | CEO

  datatype PurchaseRequest = PurchaseRequest(purpose: string, amount: int)

  /** The single message a request produces. */
  datatype Outcome = ApprovedBy(role: Role) | CannotBeApproved

  /** Whether an approver of this role approves the amount itself. */
  predicate Approves(role: Role, amount: int)
    ensures amount <= 1000 ==> Approves(role, amount)
    ensures Approves(role, amount) && amount > 5000 ==> role == CEO
  {
    match role
    case DepartmentManager => amount <= 1000
    case FinanceManager => amount <= 5000
    case CEO => true
  }

  /** No approver of `roles` approves `amount` on its own authority. */
  predicate NoneApproves(roles: seq<Role>, amount: int) {
    forall k :: 0 <= k < |roles| ==> !Approves(roles[k], amount)
  }

  /** processRequest, read along the roles of a chain from its first approver. */
  function Dispatch(roles: seq<Role>, amount: int): (outcome: Outcome)
    requires roles != []
    ensures outcome.ApprovedBy? ==> outcome.role in roles && Approves(outcome.role, amount)
    ensures outcome == CannotBeApproved ==> !Approves(roles[|roles| - 1], amount)
    decreases |roles|
  {
    if Approves(roles[0], amount) then ApprovedBy(roles[0])
    else if |roles| == 1 then CannotBeApproved
    else Dispatch(roles[1..], amount)
  }

  /**
   * Exactly one outcome: approval by the first approver in chain order whose
   * condition holds, and the fallback exactly when none holds.
   */
  lemma {:induction false} DispatchIsFirstApprover(roles: seq<Role>, amount: int)
    requires roles != []
    ensures Dispatch(roles, amount) == CannotBeApproved <==> NoneApproves(roles, amount)
    ensures Dispatch(roles, amount).ApprovedBy? ==>
      exists k :: 0 <= k < |roles| && Dispatch(roles, amount).role == roles[k] &&
        Approves(roles[k], amount) && NoneApproves(roles[..k], amount)
    decreases |roles|
  {
    if Approves(roles[0], amount) {
      assert NoneApproves(roles[..0], amount);
    } else if |roles| > 1 {
      DispatchIsFirstApprover(roles[1..], amount);
      if Dispatch(roles, amount).ApprovedBy? {
        var k :| 0 <= k < |roles| - 1 && Dispatch(roles, amount).role == roles[1..][k] &&
          Approves(roles[1..][k], amount) && NoneApproves(roles[1..][..k], amount);
        assert roles[..k + 1] == [roles[0]] + roles[1..][..k];
      }
      assert NoneApproves(roles, amount) <==> NoneApproves(roles[1..], amount);
    }
  }

  /** An approver with its mutable link to the next one. */
  class Approver {
    const role: Role
    var next: Approver?

    constructor (role: Role)
      ensures this.role == role && next == null
    {
      this.role := role;
      next := null;
    }

    /** Replaces any previous successor and returns the new one, so calls can be chained. */
    method SetNext(approver: Approver) returns (r: Approver)
      modifies this
      ensures next == approver && r == approver
    {
      next := approver;
      r := approver;
    }

    /**
     * Handles the request or passes it on. The ghost `chain` lists the
     * approvers the request visits by following `next` from this one; the
     * links may loop, as long as the walk reaches an approver that approves
     * or a null link.
     */
    method ProcessRequest(request: PurchaseRequest, ghost chain: seq<Approver>) returns (outcome: Outcome)
      requires IsChain(this, chain, request.amount)
      ensures outcome == Dispatch(Roles(chain), request.amount)
      decreases |chain|
    {
      if Approves(role, request.amount) {
        outcome := ApprovedBy(role);
      } else if next != null {
        assert Roles(chain)[1..] == Roles(chain[1..]);
        outcome := next.ProcessRequest(request, chain[1..]);
      } else {
        outcome := CannotBeApproved;
      }
    }
  }

  function Roles(chain: seq<Approver>): (roles: seq<Role>)
    ensures |roles| == |chain|
    ensures forall k :: 0 <= k < |chain| ==> roles[k] == chain[k].role
  {
    if chain == [] then [] else [chain[0].role] + Roles(chain[1..])
  }

  /**
   * `chain` is what following `next` from `first` visits for a request of
   * `amount`: the walk ends at an approver that approves, or at a null link.
   * Nothing forbids the links from looping back.
   */
  ghost predicate IsChain(first: Approver, chain: seq<Approver>, amount: int)
    reads chain
  {
    && chain != [] && chain[0] == first
    && (forall k :: 0 <= k < |chain| - 1 ==> chain[k].next == chain[k + 1])
    && (Approves(chain[|chain| - 1].role, amount) || chain[|chain| - 1].next == null)
  }

  /** With the example chain, amounts up to 1000 go to the department manager. */
  lemma StandardChainDepartment(amount: int)
    requires amount <= 1000
    ensures Dispatch([DepartmentManager, FinanceManager, CEO], amount) == ApprovedBy(DepartmentManager)
  {
  }

  /** With the example chain, amounts in 1001..5000 go to the finance manager. */
  lemma StandardChainFinance(amount: int)
    requires 1000 < amount <= 5000
    ensures Dispatch([DepartmentManager, FinanceManager, CEO], amount) == ApprovedBy(FinanceManager)
  {
  }

  /** With the example chain, amounts above 5000 reach the CEO, so nothing is ever rejected. */
  lemma StandardChainCEO(amount: int)
    requires 5000 < amount
    ensures Dispatch([DepartmentManager, FinanceManager, CEO], amount) == ApprovedBy(CEO)
  {
  }

  /** A lone approver that declines reports that the request cannot be approved. */
  lemma LoneDeclinerRejects(role: Role, amount: int)
    requires !Approves(role, amount)
    ensures Dispatch([role], amount) == CannotBeApproved
  {
  }

  /** The example script: the chain is built with chained setNext calls and three requests are sent. */
  method ApprovalScenario() returns (laptops: Outcome, supplies: Outcome, furniture: Outcome)
    ensures laptops == ApprovedBy(DepartmentManager)
    ensures supplies == ApprovedBy(FinanceManager)
    ensures furniture == ApprovedBy(CEO)
  {
    var departmentManager := new Approver(DepartmentManager);
    var financeManager := new Approver(FinanceManager);
    var ceo := new Approver(CEO);
    var second := departmentManager.SetNext(financeManager);
    var third := second.SetNext(ceo);
    ghost var chain := [departmentManager, financeManager, ceo];
    assert Roles(chain) == [DepartmentManager, FinanceManager, CEO];
    laptops := departmentManager.ProcessRequest(PurchaseRequest("Laptops", 800), chain);
    supplies := departmentManager.ProcessRequest(PurchaseRequest("Office Supplies", 3000), chain);
    furniture := departmentManager.ProcessRequest(PurchaseRequest("New Furniture", 10000), chain);
    StandardChainCEO(10000);
  }

  /**
   * setNext does not prevent loops: after closing the chain into a ring with
   * ceo.setNext(departmentManager), every request still ends at an approver.
   */
  method LoopedChainScenario() returns (supplies: Outcome, furniture: Outcome)
    ensures supplies == ApprovedBy(FinanceManager)
    ensures furniture == ApprovedBy(CEO)
  {
    var departmentManager := new Approver(DepartmentManager);
    var financeManager := new Approver(FinanceManager);
    var ceo := new Approver(CEO);
    var second := departmentManager.SetNext(financeManager);
    var third := second.SetNext(ceo);
    var first := ceo.SetNext(departmentManager);
    ghost var chain := [departmentManager, financeManager, ceo];
    assert Roles(chain) == [DepartmentManager, FinanceManager, CEO];
    supplies := departmentManager.ProcessRequest(PurchaseRequest("Office Supplies", 3000), chain);
    furniture := departmentManager.ProcessRequest(PurchaseRequest("New Furniture", 10000), chain);
    StandardChainCEO(10000);
  }
}
