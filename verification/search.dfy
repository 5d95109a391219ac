/** The case-insensitive search box of the pages: a record is kept when
    one of two of its text fields, lowercased, contains the lowercased
    search term. */
module Search {
  import opened Text
  import opened Collections

  /** `a.toLowerCase().includes(term.toLowerCase()) ||
      b.toLowerCase().includes(term.toLowerCase())` */
  predicate Matches(a: string, b: string, term: string) {
    Contains(Lower(a), Lower(term)) || Contains(Lower(b), Lower(term))
  }

  /** An empty search term matches every record. */
  lemma EmptyTermMatches(a: string, b: string)
    ensures Matches(a, b, "")
  {
    assert Lower("") == "";
    assert StartsWith(Lower(a), "");
  }

  function HitBy<T>(fields: T -> (string, string), term: string): T -> bool {
    (x: T) => Matches(fields(x).0, fields(x).1, term)
  }

  /** `items.filter(x => ...)` over the two fields `fields` picks: exactly
      the matching records; an empty term keeps every record, in order. */
  function Searched<T(!new)>(items: seq<T>, fields: T -> (string, string), term: string): (r: seq<T>)
    ensures forall x :: x in r <==> x in items && Matches(fields(x).0, fields(x).1, term)
    ensures term == "" ==> r == items
  {
    if term == "" then
      forall x | x in items ensures HitBy(fields, term)(x) {
        EmptyTermMatches(fields(x).0, fields(x).1);
      }
      FilterKeepsAll(items, HitBy(fields, term));
      Filter(items, HitBy(fields, term))
    else Filter(items, HitBy(fields, term))
  }
}
