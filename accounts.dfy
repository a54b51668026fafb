/**
 * The accounts page (app/accounts/page.jsx): the account records, the sample
 * data, the search filter on name or account number, and the page state
 * changed by mount, refresh and the create-form button.
 */
module Accounts {
  import opened SearchFilter
  import ListView

  datatype Account = Account(
    id: string,
    name: string,
    balance: real,
    currency: string,
    kind: string,
    status: string,
    created: string,
    accountId: string)

  /** The fixed sample list the simulated fetch delivers. */
  const MockAccounts: seq<Account> := [
    Account("acc-1", "Main Trading Account", 1548750.25, "RUB", "Sandbox", "Active",
      "2023-10-15T14:30:00Z", "SB12345678"),
    Account("acc-2", "Algorithmic Trading", 568200.50, "RUB", "Sandbox", "Active",
      "2023-11-20T09:15:00Z", "SB87654321"),
    Account("acc-3", "Test Account", 100000.00, "RUB", "Sandbox", "Inactive",
      "2024-01-05T11:45:00Z", "SB55443322")
  ]

  /** The search test: name or account number contains the term, ignoring case. */
  predicate AccountMatches(a: Account, term: string) {
    MatchesSearch(a.name, term) || MatchesSearch(a.accountId, term)
  }

  /**
   * `filteredAccounts`: the order-preserving subsequence of the matching
   * accounts; every occurrence of a matching account is kept.
   */
  function FilterAccounts(s: seq<Account>, term: string): (r: seq<Account>)
    ensures IsSubsequence(r, s)
    ensures forall i :: 0 <= i < |r| ==> AccountMatches(r[i], term)
    ensures forall x :: multiset(r)[x] == if AccountMatches(x, term) then multiset(s)[x] else 0
  {
    var keep := (a: Account) => AccountMatches(a, term);
    FilterIsSubsequence(s, keep);
    FilterCounts(s, keep);
    Filter(s, keep)
  }

  /** An empty search term lists every account. */
  lemma AccountFilterEmptyTermIsIdentity(s: seq<Account>)
    ensures FilterAccounts(s, "") == s
  {
    forall i | 0 <= i < |s|
      ensures AccountMatches(s[i], "")
    {
      EmptyTermMatches(s[i].name);
    }
    FilterAllPass(s, (a: Account) => AccountMatches(a, ""));
  }

  /** The state of the accounts page. The type and status selects hold no state. */
  class AccountsPage {
    var accounts: seq<Account>
    var searchTerm: string
    var loading: bool
    var showCreateForm: bool

    /** Mount: the initial state, with the simulated fetch started. */
    constructor ()
      ensures accounts == [] && searchTerm == "" && loading && !showCreateForm
    {
      accounts := [];
      searchTerm := "";
      loading := true;
      showCreateForm := false;
    }

    /** The end of the simulated fetch (mount or refresh). */
    method CompleteFetch()
      modifies this
      ensures accounts == MockAccounts && !loading
      ensures searchTerm == old(searchTerm) && showCreateForm == old(showCreateForm)
    {
      accounts := MockAccounts;
      loading := false;
    }

    /** `handleRefresh`: the start of a new simulated fetch. */
    method HandleRefresh()
      modifies this
      ensures loading && accounts == old(accounts)
      ensures searchTerm == old(searchTerm) && showCreateForm == old(showCreateForm)
    {
      loading := true;
    }

    /** `handleCreateAccount`: opens the form; the list is untouched. */
    method HandleCreateAccount()
      modifies this
      ensures showCreateForm
      ensures accounts == old(accounts) && searchTerm == old(searchTerm) && loading == old(loading)
    {
      showCreateForm := true;
    }

    /**
     * The browser's default submit of the create form. The form has no
     * `onSubmit`, so submitting it reloads the page, which mounts afresh:
     * empty list, empty search, loading, form closed.
     */
    method ReloadPage()
      modifies this
      ensures accounts == [] && searchTerm == "" && loading && !showCreateForm
    {
      accounts := [];
      searchTerm := "";
      loading := true;
      showCreateForm := false;
    }

    /**
     * The Cancel button: its handler closes the form. The form then leaves
     * the page before the button's default submit would run, so nothing is
     * submitted and nothing else changes.
     */
    method CancelCreateForm()
      modifies this
      ensures !showCreateForm
      ensures accounts == old(accounts) && searchTerm == old(searchTerm) && loading == old(loading)
    {
      showCreateForm := false;
    }

    /** The "Create Account" submit button: the form has no handler, so the page reloads. */
    method SubmitCreateForm()
      modifies this
      ensures accounts == [] && searchTerm == "" && loading && !showCreateForm
    {
      ReloadPage();
    }

    /** The search box's `onChange`. */
    method SetSearchTerm(term: string)
      modifies this
      ensures searchTerm == term
      ensures accounts == old(accounts) && loading == old(loading) && showCreateForm == old(showCreateForm)
    {
      searchTerm := term;
    }

    /** `filteredAccounts` of the current state: a function of `accounts` and `searchTerm` alone. */
    function Filtered(): (r: seq<Account>)
      reads this
      ensures IsSubsequence(r, accounts)
      ensures searchTerm == "" ==> r == accounts
    {
      AccountFilterEmptyTermIsIdentity(accounts);
      FilterAccounts(accounts, searchTerm)
    }

    /** The table body: spinner row, "No accounts found.", or one row per filtered account. */
    function View(): (v: ListView.View<Account>)
      reads this
      ensures v.Spinner? <==> loading
      ensures v.NothingFound? <==> !loading && |Filtered()| == 0
      ensures v.Items? ==> v.items == Filtered()
    {
      ListView.Select(loading, Filtered())
    }
  }
}
