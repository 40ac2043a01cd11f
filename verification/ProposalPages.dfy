/** The search of a reader for the number of pages of proposals: doubling, then halving. */
module ProposalPages {
  import opened DaoTypes
  import opened Dao
  import opened DaoProofs
  import opened Storage
  import opened DaoContract

  /** Page `page` of a project with `total` proposals is not empty. */
  predicate Filled(total: nat, page: nat) {
    page * MAX_PROPOSALS_PER_PAGE < total
  }

  /** A page has proposals only if every page before it is full, and there are not too many pages. */
  lemma PagesAreFilledInOrder<P(!new)>(contract: Tansu<P>, key: Key, page: nat)
    requires contract.Valid()
    ensures var total := Total(contract.world, key);
            && (PageSize(total, page, MAX_PROPOSALS_PER_PAGE) > 0 <==> Filled(total, page))
            && (Filled(total, page) ==> page < MAX_PAGES && key in contract.world.projects)
            && (Filled(total, page) ==>
                  forall p: nat :: p < page ==> PageSize(total, p, MAX_PROPOSALS_PER_PAGE) == MAX_PROPOSALS_PER_PAGE)
  {
    assert NumberedAt(contract.world, key);
  }

  /** `hasProposalsOnPage`: any error reads as an empty page. */
  method HasProposalsOnPage<P(==,!new)>(contract: Tansu<P>, key: Key, page: nat) returns (has: bool)
    requires contract.Valid()
    ensures has <==> Filled(Total(contract.world, key), page)
  {
    var dao := contract.GetDao(key, page);
    PagesAreFilledInOrder(contract, key, page);
    return dao.Ok? && |dao.value| > 0;
  }

  /** `getProposalPages`: the exact number of pages that have proposals, or 1 when there are none. */
  method GetProposalPages<P(==,!new)>(contract: Tansu<P>, key: Key) returns (pages: nat)
    requires contract.Valid()
    ensures Total(contract.world, key) == 0 ==> pages == 1
    ensures Total(contract.world, key) > 0 ==> 9 * (pages - 1) < Total(contract.world, key) <= 9 * pages
  {
    ghost var total := Total(contract.world, key);
    var first := HasProposalsOnPage(contract, key, 0);
    if !first {
      return 1;
    }
    var low, high := 0, 1;
    while true
      invariant 0 <= low < high <= 2 * low + 1 && Filled(total, low)
      decreases MAX_PAGES - low
    {
      var more := HasProposalsOnPage(contract, key, high);
      if !more {
        break;
      }
      PagesAreFilledInOrder(contract, key, high);
      low := high;
      high := high * 2;
    }
    while high - low > 1
      invariant 0 <= low < high && Filled(total, low) && !Filled(total, high)
    {
      var middle := (low + high) / 2;
      var has := HasProposalsOnPage(contract, key, middle);
      if has {
        low := middle;
      } else {
        high := middle;
      }
    }
    return low + 1;
  }
}
