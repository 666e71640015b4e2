/** `src/pages/DashBoard.tsx`: the name search behind the employee table. */
module DashBoard {
  import opened Sequences
  import opened Text
  import opened EmployeeSlice

  /** The template string `${firstName} ${lastName}`. */
  function FullName(e: Employee): string
  {
    e.firstName + " " + e.lastName
  }

  /** The filter's test: the lowered full name includes the lowered search term. */
  predicate MatchesSearch(e: Employee, searchTerm: string)
  {
    Includes(Lower(FullName(e)), Lower(searchTerm))
  }

  function MatchesSearchTerm(searchTerm: string): Employee -> bool
  {
    (e: Employee) => MatchesSearch(e, searchTerm)
  }

  /** `filteredEmployees`: computed from the store's list and the page's own `searchTerm`
      (not the slice's `searchQuery`); the list itself is not changed. The result keeps, in
      their original order, exactly the employees that match, with every occurrence. */
  function FilteredEmployees(employees: seq<Employee>, searchTerm: string): (r: seq<Employee>)
    ensures IsSubsequence(r, employees)
    ensures forall e :: e in r <==> e in employees && MatchesSearch(e, searchTerm)
    ensures forall e :: multiset(r)[e] == if MatchesSearch(e, searchTerm) then multiset(employees)[e] else 0
  {
    FilterIsSubsequence(employees, MatchesSearchTerm(searchTerm));
    FilterMembership(employees, MatchesSearchTerm(searchTerm));
    FilterCounts(employees, MatchesSearchTerm(searchTerm));
    Filter(employees, MatchesSearchTerm(searchTerm))
  }

  /** An empty search keeps every employee. */
  lemma EmptySearchKeepsAll(employees: seq<Employee>)
    ensures FilteredEmployees(employees, "") == employees
  {
    forall i | 0 <= i < |employees|
      ensures MatchesSearchTerm("")(employees[i])
    {
      IncludesEmpty(Lower(FullName(employees[i])));
    }
    FilterKeepsAll(employees, MatchesSearchTerm(""));
  }

  /** Two search terms with the same lowercasing select the same employees. */
  lemma SearchIgnoresCase(employees: seq<Employee>, term1: string, term2: string)
    requires Lower(term1) == Lower(term2)
    ensures FilteredEmployees(employees, term1) == FilteredEmployees(employees, term2)
  {
    FilterPointwise(employees, MatchesSearchTerm(term1), MatchesSearchTerm(term2));
  }

  /** In particular, searching for a term or for its lowercase gives the same rows. */
  lemma SearchByLoweredTerm(employees: seq<Employee>, term: string)
    ensures FilteredEmployees(employees, Lower(term)) == FilteredEmployees(employees, term)
  {
    LowerIdempotent(term);
    SearchIgnoresCase(employees, Lower(term), term);
  }

  /** A match is decided by a position in the lowered full name where the lowered term starts. */
  lemma MatchMeansOccurrence(e: Employee, searchTerm: string)
    ensures MatchesSearch(e, searchTerm) ==> exists i :: OccursAt(Lower(FullName(e)), Lower(searchTerm), i)
    ensures (exists i :: OccursAt(Lower(FullName(e)), Lower(searchTerm), i)) ==> MatchesSearch(e, searchTerm)
  {
    IncludesIffOccurs(Lower(FullName(e)), Lower(searchTerm));
  }
}
