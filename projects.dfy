/**
 * The project lifecycle (projects.service.ts) over the project, bid and
 * contract rows of projects.entity.ts, bids.entity.ts and contract.entity.ts.
 * Payments go through the wallet ledger.
 */
module Projects {
  import opened Common
  import Users
  import Wallets

  /** ProjectStatus (create-project.dto.ts:11-18). */
  const ProjectStatuses: seq<string> := ["pending", "in_progress", "testing", "rejected", "completed", "cancelled"]

  /** The admin whose site wallet receives accepted bids (projects.service.ts:224). */
  const SiteAdminId: int := 3

  /** A bid row; `status` defaults to 'pending' and `currency` to 'SPY'. */
  datatype Bid = Bid(
    projectId: nat,
    freelancerId: int,
    ownerId: int,
    amount: real,
    currency: string,
    status: string)

  /** A JSON property read: absent, `null`, or a string. */
  datatype JsonText = Undefined | Null | Text(text: string)

  /** The JSON `signatures` column of a contract. */
  datatype Signatures = Signatures(owner: JsonText, freelancer: JsonText)

  datatype Contract = Contract(projectId: nat, content: string, signatures: Option<Signatures>)

  /**
   * A project row. `status` is a free string column (default 'active'),
   * `currentStage` the stage column (default 'introduction'); `selectedBid`
   * and `contract` index the bid and contract stores.
   */
  datatype Project = Project(
    ownerId: int,
    categoryId: nat,
    duration: int,
    status: string,
    currentStage: string,
    startDate: Option<int>,
    endDate: Option<int>,
    selectedBid: Option<nat>,
    contract: Option<nat>)

  /**
   * nextStageMap (projects.service.ts:130-137), looked up with the
   * project's status: introduction, negotiation and contract have a
   * successor; execution maps to null and every other key is absent.
   */
  function NextStageOf(status: string): (r: Option<string>)
    ensures r.Some? <==> status in ["introduction", "negotiation", "contract"]
    ensures status == "introduction" ==> r == Some("negotiation")
    ensures status == "negotiation" ==> r == Some("contract")
    ensures status == "contract" ==> r == Some("execution")
  {
    match status
    case "introduction" => Some("negotiation")
    case "negotiation" => Some("contract")
    case "contract" => Some("execution")
    case _ => None
  }

  /** No lifecycle status is a key of nextStageMap, so none of them can advance. */
  lemma LifecycleStatusesNeverAdvance(status: string)
    requires status in ProjectStatuses
    ensures NextStageOf(status).None?
  {
  }

  /** The share of a bid paid at the testing stage and the share held back (projects.service.ts:270-273). */
  const ReleaseShare: real := 0.7
  const EscrowShare: real := 0.3
  /** The site's fee at completion (projects.service.ts:328-329). */
  const CompletionFee: real := 0.1

  /**
   * With the wallet in the bid's currency, the two payment calls of the
   * testing stage lower the balance by the whole bid and raise escrow by 30%;
   * they fail exactly when the balance is below 70% of the bid or, after
   * that, below 30%.
   */
  lemma TestingPaymentMovesWholeBid(w: Wallets.Wallet, amount: real)
    requires amount >= 0.0 && w.balance >= amount
    ensures Wallets.Apply(w, Wallets.DeductOp(amount * ReleaseShare)).Some?
    ensures var w1 := Wallets.Apply(w, Wallets.DeductOp(amount * ReleaseShare)).value;
      Wallets.Apply(w1, Wallets.HoldOp(amount * EscrowShare)).Some?
      && Wallets.Apply(w1, Wallets.HoldOp(amount * EscrowShare)).value.balance == w.balance - amount
      && Wallets.Apply(w1, Wallets.HoldOp(amount * EscrowShare)).value.escrow == w.escrow + amount * EscrowShare
  {
  }

  class ProjectService {
    const users: Users.UsersService
    const wallets: Wallets.WalletService
    var projects: seq<Project>     // the id of a project is its position
    var bids: seq<Bid>
    var contracts: seq<Contract>
    var categories: set<nat>

    constructor(users: Users.UsersService, wallets: Wallets.WalletService)
      ensures this.users == users && this.wallets == wallets
      ensures projects == [] && bids == [] && contracts == [] && categories == {}
      ensures Valid()
    {
      this.users := users;
      this.wallets := wallets;
      projects := [];
      bids := [];
      contracts := [];
      categories := {};
    }

    /**
     * The store invariant: references between rows resolve, and every
     * status is a ProjectStatus value (the only ones createProject and
     * updateProjectStatus write).
     */
    ghost predicate Valid()
      reads this
    {
      (forall i :: 0 <= i < |projects| ==> projects[i].status in ProjectStatuses)
      && (forall i :: 0 <= i < |projects| && projects[i].selectedBid.Some? ==> projects[i].selectedBid.value < |bids|)
      && (forall i :: 0 <= i < |projects| && projects[i].contract.Some? ==> projects[i].contract.value < |contracts|)
    }

    /** A bid row saved by the bid service, which shares this table. */
    method InsertBid(b: Bid)
      requires Valid()
      modifies this
      ensures Valid()
      ensures bids == old(bids) + [b] && projects == old(projects) && contracts == old(contracts)
    {
      bids := bids + [b];
    }

    /**
     * createProject (projects.service.ts:35-62): the owner must exist and
     * hold 'Owner', the category must exist; the project starts pending.
     */
    method CreateProject(ownerId: int, categoryId: nat, duration: int) returns (r: Result<nat>)
      requires Valid()
      modifies this
      ensures Valid()
      ensures users.Find(ownerId).None? ==> r == Err(NotFound("User not found")) && unchanged(this)
      ensures users.Find(ownerId).Some? && !Users.HasRole(users.Find(ownerId).value, "Owner") ==>
        r == Err(Failure("User lacks the rights to create a project")) && unchanged(this)
      ensures users.Find(ownerId).Some? && Users.HasRole(users.Find(ownerId).value, "Owner") && categoryId !in categories ==>
        r == Err(Failure("Category not found")) && unchanged(this)
      ensures users.Find(ownerId).Some? && Users.HasRole(users.Find(ownerId).value, "Owner") && categoryId in categories ==>
        projects == old(projects) + [Project(ownerId, categoryId, duration, "pending", "introduction", None, None, None, None)]
        && bids == old(bids) && contracts == old(contracts) && categories == old(categories)
        && r == Ok(|old(projects)|)
    {
      var user := users.Find(ownerId);
      if user.None? {
        return Err(NotFound("User not found"));
      }
      if !Users.HasRole(user.value, "Owner") {
        return Err(Failure("User lacks the rights to create a project"));
      }
      if categoryId !in categories {
        return Err(Failure("Category not found"));
      }
      r := Ok(|projects|);
      projects := projects + [Project(ownerId, categoryId, duration, "pending", "introduction", None, None, None, None)];
    }

    /**
     * updateProjectStatus (projects.service.ts:64-84): any of the six
     * ProjectStatus values is accepted whatever the current status.
     */
    method UpdateProjectStatus(projectId: int, status: string) returns (r: Result<Project>)
      requires Valid()
      modifies this
      ensures Valid()
      ensures !(0 <= projectId < old(|projects|)) ==> r == Err(Failure("Project not found")) && unchanged(this)
      ensures 0 <= projectId < old(|projects|) && status !in ProjectStatuses ==>
        r == Err(Failure("Invalid status")) && unchanged(this)
      ensures 0 <= projectId < old(|projects|) && status in ProjectStatuses ==>
        projects == old(projects)[projectId := old(projects[projectId]).(status := status)]
        && bids == old(bids) && contracts == old(contracts) && r == Ok(projects[projectId])
    {
      if !(0 <= projectId < |projects|) {
        return Err(Failure("Project not found"));
      }
      if status !in ProjectStatuses {
        return Err(Failure("Invalid status"));
      }
      projects := projects[projectId := projects[projectId].(status := status)];
      r := Ok(projects[projectId]);
    }

    /**
     * advanceProjectStage (projects.service.ts:123-153): owner only; the
     * successor is looked up with the project's status, and entering
     * 'contract' creates a default contract when there is none. Since the
     * stored statuses are lifecycle values, an owner always gets "Invalid
     * stage transition" from a valid store.
     */
    method AdvanceProjectStage(projectId: int, userId: int) returns (r: Result<Project>)
      modifies this
      ensures old(Valid()) ==> Valid()
      ensures !(0 <= projectId < old(|projects|)) ==>
        r == Err(TypeError("Cannot read properties of null (reading 'owner')")) && unchanged(this)
      ensures 0 <= projectId < old(|projects|) && old(projects[projectId]).ownerId != userId ==>
        r == Err(Forbidden("Only owner can advance project stage")) && unchanged(this)
      ensures 0 <= projectId < old(|projects|) && old(projects[projectId]).ownerId == userId ==>
        var p := old(projects[projectId]);
        match NextStageOf(p.status)
        case None => r == Err(BadRequest("Invalid stage transition")) && unchanged(this)
        case Some(next) =>
          if next == "contract" && p.contract.None? then
            contracts == old(contracts) + [Contract(projectId, "Default contract content", None)]
            && projects == old(projects)[projectId := p.(status := next, contract := Some(|old(contracts)|))]
            && bids == old(bids) && r == Ok(projects[projectId])
          else
            contracts == old(contracts) && bids == old(bids)
            && projects == old(projects)[projectId := p.(status := next)] && r == Ok(projects[projectId])
      ensures old(Valid()) && 0 <= projectId < old(|projects|) && old(projects[projectId]).ownerId == userId ==>
        r == Err(BadRequest("Invalid stage transition"))
    {
      if !(0 <= projectId < |projects|) {
        return Err(TypeError("Cannot read properties of null (reading 'owner')"));
      }
      var p := projects[projectId];
      if p.ownerId != userId {
        return Err(Forbidden("Only owner can advance project stage"));
      }
      var next := NextStageOf(p.status);
      if next.None? {
        return Err(BadRequest("Invalid stage transition"));
      }
      if next.value == "contract" && p.contract.None? {
        p := p.(contract := Some(|contracts|));
        contracts := contracts + [Contract(projectId, "Default contract content", None)];
      }
      p := p.(status := next.value);
      projects := projects[projectId := p];
      r := Ok(p);
    }

    /**
     * rejectBid (projects.service.ts:168-184): only the named bid changes,
     * to 'rejected'; the bid need not belong to the project.
     */
    method RejectBid(projectId: int, bidId: int) returns (r: Result<Project>)
      requires Valid()
      modifies this
      ensures Valid()
      ensures !(0 <= projectId < old(|projects|) && 0 <= bidId < old(|bids|)) ==>
        r == Err(Failure("Project or Bid not found")) && unchanged(this)
      ensures 0 <= projectId < old(|projects|) && 0 <= bidId < old(|bids|) ==>
        bids == old(bids)[bidId := old(bids[bidId]).(status := "rejected")]
        && projects == old(projects) && contracts == old(contracts) && r == Ok(projects[projectId])
    {
      if !(0 <= projectId < |projects| && 0 <= bidId < |bids|) {
        return Err(Failure("Project or Bid not found"));
      }
      bids := bids[bidId := bids[bidId].(status := "rejected")];
      r := Ok(projects[projectId]);
    }

    /**
     * acceptBid (projects.service.ts:187-243) up to its notification: the
     * project must be pending with a non-zero duration; it then runs from
     * now for `duration` days with the bid selected and accepted, and the
     * bid's amount is credited to the site wallet of admin 3.
     */
    method AcceptBid(projectId: int, bidId: int, now: int) returns (r: Result<Project>)
      requires Valid()
      modifies this, wallets
      ensures Valid()
      ensures !(0 <= projectId < old(|projects|) && 0 <= bidId < old(|bids|)) ==>
        r == Err(Failure("Project or Bid not found")) && unchanged(this) && unchanged(wallets)
      ensures 0 <= projectId < old(|projects|) && 0 <= bidId < old(|bids|) && old(projects[projectId]).status != "pending" ==>
        r == Err(Failure("Project is not active")) && unchanged(this) && unchanged(wallets)
      ensures 0 <= projectId < old(|projects|) && 0 <= bidId < old(|bids|) && old(projects[projectId]).status == "pending"
              && old(projects[projectId]).duration == 0 ==>
        r == Err(BadRequest("Duration is not set for the project")) && unchanged(this) && unchanged(wallets)
      ensures 0 <= projectId < old(|projects|) && 0 <= bidId < old(|bids|) && old(projects[projectId]).status == "pending"
              && old(projects[projectId]).duration != 0 ==>
        var p := old(projects[projectId]);
        var b := old(bids[bidId]);
        projects == old(projects)[projectId := p.(startDate := Some(now), endDate := Some(now + p.duration * MsPerDay),
                                                  status := "in_progress", selectedBid := Some(bidId))]
        && bids == old(bids)[bidId := b.(status := "accepted")]
        && contracts == old(contracts)
        && wallets.wallets == old(wallets.wallets) && wallets.log == old(wallets.log)
        && (if SiteAdminId in old(wallets.siteWallets) && old(wallets.siteWallets[SiteAdminId]).currency == b.currency then
              wallets.siteWallets == old(wallets.siteWallets)[SiteAdminId :=
                old(wallets.siteWallets[SiteAdminId]).(balance := old(wallets.siteWallets[SiteAdminId]).balance + b.amount)]
              && r == Ok(projects[projectId])
            else
              wallets.siteWallets == old(wallets.siteWallets) && r == Err(Failure("Site wallet not found")))
    {
      if !(0 <= projectId < |projects| && 0 <= bidId < |bids|) {
        return Err(Failure("Project or Bid not found"));
      }
      var p := projects[projectId];
      if p.status != "pending" {
        return Err(Failure("Project is not active"));
      }
      if p.duration == 0 {
        return Err(BadRequest("Duration is not set for the project"));
      }
      p := p.(startDate := Some(now), endDate := Some(now + p.duration * MsPerDay),
              status := "in_progress", selectedBid := Some(bidId));
      var b := bids[bidId].(status := "accepted");
      projects := projects[projectId := p];
      bids := bids[bidId := b];
      var credited := wallets.TransferToSiteAccount(SiteAdminId, b.amount, b.currency);
      if credited.Err? {
        return Err(credited.error);
      }
      r := Ok(p);
    }

    /**
     * acceptBid as written: the bid is loaded with its owner relation only,
     * so reading `bid.freelancer.email` for the notification throws after
     * every write above has been made.
     */
    method AcceptBidAsWritten(projectId: int, bidId: int, now: int) returns (r: Result<Project>)
      requires Valid()
      modifies this, wallets
      ensures Valid()
      ensures r.Ok? ==> false
      ensures 0 <= projectId < old(|projects|) && 0 <= bidId < old(|bids|) && old(projects[projectId]).status == "pending"
              && old(projects[projectId]).duration != 0
              && SiteAdminId in old(wallets.siteWallets) && old(wallets.siteWallets[SiteAdminId]).currency == old(bids[bidId]).currency ==>
        r == Err(TypeError("Cannot read properties of undefined (reading 'email')"))
        && |projects| == old(|projects|) && |bids| == old(|bids|)
        && projects[projectId].status == "in_progress" && bids[bidId].status == "accepted"
    {
      r := AcceptBid(projectId, bidId, now);
      if r.Ok? {
        r := Err(TypeError("Cannot read properties of undefined (reading 'email')"));
      }
    }

    /**
     * sendProjectToTesting (projects.service.ts:246-302) with the selected
     * bid's freelancer available: the status is saved as testing before the
     * bid is checked; then 70% of the bid is deducted from the freelancer's
     * wallet (transferToFreelancer debits) and 30% is moved to its escrow.
     */
    method SendProjectToTesting(projectId: int, rate: Wallets.RateTable) returns (r: Result<Project>)
      requires Valid()
      modifies this, wallets
      ensures Valid()
      ensures !(0 <= projectId < old(|projects|)) ==>
        r == Err(Failure("Project not found")) && unchanged(this) && unchanged(wallets)
      ensures 0 <= projectId < old(|projects|) && old(projects[projectId]).status != "in_progress" ==>
        r == Err(Failure("Project is not in progress")) && unchanged(this) && unchanged(wallets)
      ensures 0 <= projectId < old(|projects|) && old(projects[projectId]).status == "in_progress" ==>
        projects == old(projects)[projectId := old(projects[projectId]).(status := "testing")]
        && bids == old(bids) && contracts == old(contracts) && wallets.siteWallets == old(wallets.siteWallets)
      ensures 0 <= projectId < old(|projects|) && old(projects[projectId]).status == "in_progress"
              && old(projects[projectId]).selectedBid.None? ==>
        r == Err(Failure("No accepted bid found")) && unchanged(wallets)
      ensures 0 <= projectId < old(|projects|) && old(projects[projectId]).status == "in_progress"
              && old(projects[projectId]).selectedBid.Some? ==>
        var b := old(bids)[old(projects[projectId]).selectedBid.value];
        var f := b.freelancerId;
        if old(wallets.GetWallet(f)).Err? then
          r == Err(old(wallets.GetWallet(f)).error) && unchanged(wallets)
        else
          var w := old(wallets.wallets)[f];
          var a := Wallets.Convert(rate, b.amount * ReleaseShare, b.currency, w.currency);
          if Wallets.Apply(w, Wallets.DeductOp(a)).None? then
            r == Err(BadRequest("Insufficient funds")) && unchanged(wallets)
          else
            var w1 := Wallets.Apply(w, Wallets.DeductOp(a)).value;
            wallets.log == old(wallets.log) + [Wallets.Transaction(f, -a, w.currency, Wallets.Withdrawal, "completed")]
            && if w.currency != b.currency then
                 r == Err(Failure("Wallet not found for freelancer")) && wallets.wallets == old(wallets.wallets)[f := w1]
               else if Wallets.Apply(w1, Wallets.HoldOp(b.amount * EscrowShare)).None? then
                 r == Err(Failure("Insufficient funds to hold in escrow")) && wallets.wallets == old(wallets.wallets)[f := w1]
               else
                 wallets.wallets == old(wallets.wallets)[f := Wallets.Apply(w1, Wallets.HoldOp(b.amount * EscrowShare)).value]
                 && r == Ok(projects[projectId])
      ensures r.Ok? ==>
        var b := old(bids)[old(projects[projectId]).selectedBid.value];
        var f := b.freelancerId;
        f in old(wallets.wallets)
        && (var w := old(wallets.wallets)[f];
            w.currency == b.currency
            && Wallets.Apply(w, Wallets.DeductOp(b.amount * ReleaseShare)).Some?
            && var w1 := Wallets.Apply(w, Wallets.DeductOp(b.amount * ReleaseShare)).value;
            Wallets.Apply(w1, Wallets.HoldOp(b.amount * EscrowShare)).Some?
            && wallets.wallets == old(wallets.wallets)[f := Wallets.Apply(w1, Wallets.HoldOp(b.amount * EscrowShare)).value]
            && wallets.log == old(wallets.log) + [Wallets.Transaction(f, -(b.amount * ReleaseShare), b.currency, Wallets.Withdrawal, "completed")]
            && r == Ok(projects[projectId]))
    {
      if !(0 <= projectId < |projects|) {
        return Err(Failure("Project not found"));
      }
      var p := projects[projectId];
      if p.status != "in_progress" {
        return Err(Failure("Project is not in progress"));
      }
      p := p.(status := "testing");
      projects := projects[projectId := p];
      if p.selectedBid.None? {
        return Err(Failure("No accepted bid found"));
      }
      var b := bids[p.selectedBid.value];
      var paid := wallets.TransferToFreelancer(b.freelancerId, b.amount * ReleaseShare, b.currency, rate);
      if paid.Err? {
        return Err(paid.error);
      }
      var held := wallets.HoldFundsInEscrow(b.freelancerId, b.amount * EscrowShare, b.currency);
      if held.Err? {
        return Err(held.error);
      }
      r := Ok(p);
    }

    /**
     * sendProjectToTesting as written: the selected bid is loaded without
     * its freelancer relation, so `bid.freelancer.id` throws right after the
     * testing status is saved and no money moves.
     */
    method SendProjectToTestingAsWritten(projectId: int) returns (r: Result<Project>)
      requires Valid()
      modifies this
      ensures Valid()
      ensures r.Ok? ==> false
      ensures 0 <= projectId < old(|projects|) && old(projects[projectId]).status == "in_progress" ==>
        projects == old(projects)[projectId := old(projects[projectId]).(status := "testing")]
        && bids == old(bids) && contracts == old(contracts)
      ensures 0 <= projectId < old(|projects|) && old(projects[projectId]).status == "in_progress"
              && old(projects[projectId]).selectedBid.Some? ==>
        r == Err(TypeError("Cannot read properties of undefined (reading 'id')"))
    {
      if !(0 <= projectId < |projects|) {
        return Err(Failure("Project not found"));
      }
      var p := projects[projectId];
      if p.status != "in_progress" {
        return Err(Failure("Project is not in progress"));
      }
      p := p.(status := "testing");
      projects := projects[projectId := p];
      if p.selectedBid.None? {
        return Err(Failure("No accepted bid found"));
      }
      r := Err(TypeError("Cannot read properties of undefined (reading 'id')"));
    }

    /**
     * completeProject (projects.service.ts:305-338) with the selected bid's
     * freelancer available: only an in-progress project completes; the
     * status is saved first, then the bid less the 10% fee is deducted from
     * the freelancer's wallet.
     */
    method CompleteProject(projectId: int, rate: Wallets.RateTable) returns (r: Result<Project>)
      requires Valid()
      modifies this, wallets
      ensures Valid()
      ensures !(0 <= projectId < old(|projects|)) ==>
        r == Err(Failure("Project not found")) && unchanged(this) && unchanged(wallets)
      ensures 0 <= projectId < old(|projects|) && old(projects[projectId]).status != "in_progress" ==>
        r == Err(Failure("Project is not in progress")) && unchanged(this) && unchanged(wallets)
      ensures 0 <= projectId < old(|projects|) && old(projects[projectId]).status == "in_progress" ==>
        projects == old(projects)[projectId := old(projects[projectId]).(status := "completed")]
        && bids == old(bids) && contracts == old(contracts) && wallets.siteWallets == old(wallets.siteWallets)
      ensures 0 <= projectId < old(|projects|) && old(projects[projectId]).status == "in_progress"
              && old(projects[projectId]).selectedBid.None? ==>
        r == Err(Failure("No accepted bid found")) && unchanged(wallets)
      ensures 0 <= projectId < old(|projects|) && old(projects[projectId]).status == "in_progress"
              && old(projects[projectId]).selectedBid.Some? ==>
        var b := old(bids)[old(projects[projectId]).selectedBid.value];
        var f := b.freelancerId;
        if old(wallets.GetWallet(f)).Err? then
          r == Err(old(wallets.GetWallet(f)).error) && unchanged(wallets)
        else
          var w := old(wallets.wallets)[f];
          var a := Wallets.Convert(rate, b.amount - b.amount * CompletionFee, b.currency, w.currency);
          if Wallets.Apply(w, Wallets.DeductOp(a)).None? then
            r == Err(BadRequest("Insufficient funds")) && unchanged(wallets)
          else
            wallets.wallets == old(wallets.wallets)[f := Wallets.Apply(w, Wallets.DeductOp(a)).value]
            && wallets.log == old(wallets.log) + [Wallets.Transaction(f, -a, w.currency, Wallets.Withdrawal, "completed")]
            && r == Ok(projects[projectId])
      ensures r.Ok? ==>
        var b := old(bids)[old(projects[projectId]).selectedBid.value];
        var f := b.freelancerId;
        f in old(wallets.wallets)
        && (var w := old(wallets.wallets)[f];
            var a := Wallets.Convert(rate, b.amount - b.amount * CompletionFee, b.currency, w.currency);
            Wallets.Apply(w, Wallets.DeductOp(a)).Some?
            && wallets.wallets == old(wallets.wallets)[f := Wallets.Apply(w, Wallets.DeductOp(a)).value]
            && wallets.log == old(wallets.log) + [Wallets.Transaction(f, -a, w.currency, Wallets.Withdrawal, "completed")]
            && r == Ok(projects[projectId]))
    {
      if !(0 <= projectId < |projects|) {
        return Err(Failure("Project not found"));
      }
      var p := projects[projectId];
      if p.status != "in_progress" {
        return Err(Failure("Project is not in progress"));
      }
      p := p.(status := "completed");
      projects := projects[projectId := p];
      if p.selectedBid.None? {
        return Err(Failure("No accepted bid found"));
      }
      var b := bids[p.selectedBid.value];
      var paid := wallets.TransferToFreelancer(b.freelancerId, b.amount - b.amount * CompletionFee, b.currency, rate);
      if paid.Err? {
        return Err(paid.error);
      }
      r := Ok(p);
    }

    /**
     * completeProject as written: like sendProjectToTesting, the freelancer
     * relation of the selected bid is not loaded, so the project is saved
     * as completed and the payment throws before any wallet is touched.
     */
    method CompleteProjectAsWritten(projectId: int) returns (r: Result<Project>)
      requires Valid()
      modifies this
      ensures Valid()
      ensures r.Ok? ==> false
      ensures 0 <= projectId < old(|projects|) && old(projects[projectId]).status == "in_progress" ==>
        projects == old(projects)[projectId := old(projects[projectId]).(status := "completed")]
        && bids == old(bids) && contracts == old(contracts)
      ensures 0 <= projectId < old(|projects|) && old(projects[projectId]).status == "in_progress"
              && old(projects[projectId]).selectedBid.Some? ==>
        r == Err(TypeError("Cannot read properties of undefined (reading 'id')"))
    {
      if !(0 <= projectId < |projects|) {
        return Err(Failure("Project not found"));
      }
      var p := projects[projectId];
      if p.status != "in_progress" {
        return Err(Failure("Project is not in progress"));
      }
      p := p.(status := "completed");
      projects := projects[projectId := p];
      if p.selectedBid.None? {
        return Err(Failure("No accepted bid found"));
      }
      r := Err(TypeError("Cannot read properties of undefined (reading 'id')"));
    }
  }
}
