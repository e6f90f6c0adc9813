/**
 * The lead table of the admin dashboard (frontend/app/theauthadminkanda/dashboard/page.tsx):
 * which leads the search box and status filter show, and the "New" card's count.
 */
module Dashboard {
  import opened Text
  import opened Collections

  /** A lead as the dashboard reads it, with the text fields the search looks at. */
  datatype Lead = Lead(id: string, fullName: string, email: string, businessName: string, status: string)

  /** The search term occurs, ignoring case, in the name, the e-mail or the business name. */
  predicate MatchesSearch(l: Lead, term: string) {
    var t := ToLower(term);
    Contains(ToLower(l.fullName), t) || Contains(ToLower(l.email), t) || Contains(ToLower(l.businessName), t)
  }

  predicate MatchesFilter(l: Lead, filter: string) {
    filter == "all" || l.status == filter
  }

  predicate Shown(l: Lead, term: string, filter: string) {
    MatchesSearch(l, term) && MatchesFilter(l, filter)
  }

  /** `filteredLeads`. */
  function FilteredLeads(leads: seq<Lead>, term: string, filter: string): (r: seq<Lead>)
    ensures |r| <= |leads|
    ensures forall i :: 0 <= i < |r| ==> r[i] in leads && Shown(r[i], term, filter)
    ensures forall i :: 0 <= i < |leads| && Shown(leads[i], term, filter) ==> leads[i] in r
  {
    Filter(leads, (l: Lead) => Shown(l, term, filter))
  }

  /** The table keeps the list's order: it is a subsequence, so "Showing X of Y" has X <= Y. */
  lemma ShownInOrder(leads: seq<Lead>, term: string, filter: string)
    ensures SubsequenceOf(FilteredLeads(leads, term, filter), leads)
  {
    FilterIsSubsequence(leads, (l: Lead) => Shown(l, term, filter));
  }

  /** The empty string occurs in every string, so an empty search hides nothing. */
  lemma EmptySearchMatches(l: Lead)
    ensures MatchesSearch(l, "")
  {
    assert ToLower("") == "";
    assert OccursAt(ToLower(l.fullName), "", 0);
    ContainsAt(ToLower(l.fullName), "", 0);
  }

  /** With the filter on "all" and no search, every lead is shown, in order. */
  lemma {:induction false} EverythingShown(leads: seq<Lead>)
    ensures FilteredLeads(leads, "", "all") == leads
    decreases |leads|
  {
    if leads != [] {
      EmptySearchMatches(leads[0]);
      EverythingShown(leads[1..]);
      assert leads == [leads[0]] + leads[1..];
    }
  }

  /** Search ignores case in the term as well as in the lead. */
  lemma SearchIgnoresCase(l: Lead, term: string)
    ensures MatchesSearch(l, ToUpper(term)) == MatchesSearch(l, term)
  {
    assert ToLower(ToUpper(term)) == ToLower(term) by {
      forall i | 0 <= i < |term| ensures ToLower(ToUpper(term))[i] == ToLower(term)[i] {
        assert LowerChar(UpperChar(term[i])) == LowerChar(term[i]);
      }
    }
  }

  function IsNew(l: Lead): bool {
    l.status == "new"
  }

  /** The "New" card: the number of leads whose status is "new". */
  function NewCount(leads: seq<Lead>): (n: nat)
    ensures n <= |leads|
    ensures n == |FilteredLeads(leads, "", "new")|
  {
    NewIsFilter(leads);
    Count(leads, IsNew)
  }

  lemma {:induction false} NewIsFilter(leads: seq<Lead>)
    ensures Filter(leads, IsNew) == FilteredLeads(leads, "", "new")
    decreases |leads|
  {
    if leads != [] {
      EmptySearchMatches(leads[0]);
      NewIsFilter(leads[1..]);
    }
  }

  /** Inserting a lead with status "new" raises the card by one. */
  lemma {:induction false} NewLeadCounts(leads: seq<Lead>, l: Lead)
    requires l.status == "new"
    ensures NewCount([l] + leads) == NewCount(leads) + 1
  {
    assert ([l] + leads)[1..] == leads;
  }
}
